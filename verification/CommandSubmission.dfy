/** `submit_command` (src/tendwire/command_submission.py) as the code is written: calls that change the
    durable rows one after the other, with everybody else acting in between. Whatever happens, one call
    of it is a run of the step system, so what holds of all runs holds of the code. */
module CommandSubmission {
  import opened Options
  import opened Envelopes
  import opened CommandStore
  import opened Submission
  import opened SubmissionInvariant
  import opened SubmissionSafety

  /** Before one of our store or backend calls: what others do, and what the environment decides. */
  datatype Turn = Turn(others: seq<Act>, choice: Choice)

  const FAIR_WEATHER := Choice(NoFault, None, NoSnapshot, Waits, None, None, StPending, Submitted, true, true)

  /** For these turns nobody else acts, and no call fails. */
  predicate Smooth(script: seq<Turn>, n: nat) {
    n <= |script| && forall i :: 0 <= i < n ==> script[i].others == [] && script[i].choice.fault.NoFault?
  }

  /** No call fails. */
  predicate Untroubled(script: seq<Turn>) {
    forall i :: 0 <= i < |script| ==> script[i].choice.fault.NoFault?
  }

  /** An answer, and the row it was read from. */
  datatype Answered = Answered(env: Envelope, born: Option<nat>)

  class Service {
    var core: Core
    var procs: map<nat, Proc>
    var script: seq<Turn>
    ghost var acts: seq<Act>
    ghost const start: System

    ghost predicate Valid()
      reads this
    {
      Run(start, acts) == System(core, procs)
    }

    ghost predicate Alone(me: nat)
      reads this
    {
      forall i :: 0 <= i < |script| ==> ByOthers(script[i].others, me)
    }

    /** We stand at this point of the step system. */
    ghost predicate At(me: nat, req: Request, pc: Pc)
      reads this
    {
      Valid() && Alone(me) && me in procs && procs[me] == Proc(req, pc)
    }

    /** The call has ended: with this answer, or, if there is none, by an exception after its send start was
        committed and before it called the backend. */
    ghost predicate Ended(me: nat, req: Request, a: Option<Answered>)
      reads this
    {
      && Valid() && Alone(me) && me in procs && procs[me].req == req
      && match a
         case Some(x) => procs[me].pc == Done(x.env, x.born)
         case None => procs[me].pc.Started? && procs[me].pc.held.None?
    }

    constructor (s: System, script: seq<Turn>)
      ensures Valid() && start == s && acts == [] && core == s.core && procs == s.procs && this.script == script
    {
      core, procs, this.script, acts, start := s.core, s.procs, script, [], s;
    }

    /** Everybody else acts. */
    method Others(me: nat) returns (ch: Choice)
      requires Valid() && Alone(me)
      modifies this
      ensures Valid() && Alone(me) && old(acts) <= acts
      ensures me in procs <==> me in old(procs)
      ensures me in procs ==> procs[me] == old(procs)[me]
      ensures script == (if old(script) == [] then [] else old(script)[1..])
      ensures ch == (if old(script) == [] then FAIR_WEATHER else old(script)[0].choice)
      ensures old(script) != [] && old(script)[0].others == [] ==> core == old(core)
    {
      ch := FAIR_WEATHER;
      if script != [] {
        var turn := script[0];
        ch, script := turn.choice, script[1..];
        OthersLeaveUs(System(core, procs), turn.others, me);
        RunJoined(start, acts, turn.others);
        var s := Run(System(core, procs), turn.others);
        core, procs, acts := s.core, s.procs, acts + turn.others;
      }
    }

    /** Our program counter after a step that found the core as `before`. */
    method Arrive(me: nat, req: Request, ghost pc: Pc, ghost before: Core, ghost ch: Choice, next: Pc)
      requires Run(start, acts) == System(before, procs) && Alone(me) && me in procs && procs[me] == Proc(req, pc)
      requires Advance(before, req, pc, ch) == (core, next)
      modifies this`procs, this`acts
      ensures At(me, req, next) && old(acts) <= acts
    {
      hide Advance;
      ghost var more := acts + [Go(me, ch)];
      assert more[..|more| - 1] == acts;
      procs := procs[me := Proc(req, next)];
      acts := more;
    }

    /** A store call; None is a raise, before or after the commit. */
    method Transact(rid: RequestId, fault: Fault, tx: (Db, Reply)) returns (reply: Option<Reply>)
      modifies this`core
      ensures (core, reply) == Attempt(old(core), rid, fault, tx)
    {
      if fault.RaisedBefore? || tx.1.tag.TRaised? { return None; }
      core := Committed(core, rid, tx.0);
      return if fault.NoFault? then Some(tx.1) else None;
    }

    // ----- Reading back and finishing -----

    /** `_recover_request`: read the row, if it can be read, and say what it says. */
    method RecoverRequest(me: nat, req: Request, canon: Canonical) returns (a: Answered)
      requires At(me, req, Rereading(canon, ThenReturn))
      modifies this
      ensures At(me, req, Done(a.env, a.born)) && old(acts) <= acts
    {
      var ch := Others(me);
      var row := if ch.fault.NoFault? then Lookup(core.db.receipts, req.rid) else None;
      a := Answered(EnvelopeFromReceipt(req, canon, row), BornOf(row));
      Arrive(me, req, Rereading(canon, ThenReturn), core, ch, Done(a.env, a.born));
    }

    /** The outcome of a store call that reports its row, or, after a raise, of reading it back. */
    method Conclude(me: nat, req: Request, canon: Canonical, ghost pc: Pc, ch: Choice, tx: (Db, Reply)) returns (a: Answered)
      requires At(me, req, pc)
      requires Advance(core, req, pc, ch) == Concluded(core, req, canon, ch.fault, tx, Rereading(canon, ThenReturn))
      modifies this
      ensures At(me, req, Done(a.env, a.born)) && old(acts) <= acts
    {
      hide Advance;
      hide Attempt;
      ghost var before := core;
      var reply := Transact(req.rid, ch.fault, tx);
      if reply.None? {
        Arrive(me, req, pc, before, ch, Rereading(canon, ThenReturn));
        a := RecoverRequest(me, req, canon);
        return;
      }
      a := Answered(EnvelopeFromReceipt(req, canon, reply.value.row), BornOf(reply.value.row));
      Arrive(me, req, pc, before, ch, Done(a.env, a.born));
    }

    /** `_finish_request`. */
    method FinishRequest(me: nat, req: Request, lease: Lease, from: ReceiptState, terminal: ReceiptState, env: Envelope,
                         effect: Option<(nat, WorkerId)>)
      returns (a: Answered)
      requires IsTerminal(terminal) && At(me, req, FinishPc(req, lease, from, terminal, env, effect))
      modifies this
      ensures At(me, req, Done(a.env, a.born)) && old(acts) <= acts
    {
      var ch := Others(me);
      var stored := Terminalized(req, env, terminal);
      a := Conclude(me, req, lease.canon, FinishPc(req, lease, from, terminal, env, effect), ch,
                    FinishTx(core.db, core.now, req.rid, lease.canon, lease.token, from, terminal, stored, effect));
    }

    /** `_finish_before_send`. */
    method FinishBeforeSend(me: nat, req: Request, lease: Lease, env: Envelope) returns (a: Answered)
      requires var terminal := if env.status.StUncertain? then Uncertain else Rejected;
               At(me, req, FinishPc(req, lease, Reserved, terminal, env, None))
      modifies this
      ensures At(me, req, Done(a.env, a.born)) && old(acts) <= acts
    {
      var terminal := if env.status.StUncertain? then Uncertain else Rejected;
      a := FinishRequest(me, req, lease, Reserved, terminal, env, None);
    }

    /** `_reserve_terminal_replay`. */
    method ReserveTerminalReplay(me: nat, req: Request, canon: Canonical, seen: Receipt, replay: Envelope) returns (a: Answered)
      requires At(me, req, Replaying(canon, seen, replay))
      modifies this
      ensures At(me, req, Done(a.env, a.born)) && old(acts) <= acts
    {
      var ch := Others(me);
      var terminal, stored := Uncertain, UncertainWith(req, EvidenceDisappeared);
      if seen.state.Rejected? && !replay.ok && replay.status !in {StPending, StAccepted, StUncertain} { terminal, stored := Rejected, replay; }
      a := Conclude(me, req, canon, Replaying(canon, seen, replay), ch,
                    ReplayTx(core.db, core.now, req.rid, canon, terminal, stored, seen.proof));
    }

    // ----- Reserving -----

    /** `_reserve_canonical_request`: the lease, or the answer instead of one. */
    method ReserveCanonical(me: nat, req: Request, canon: Canonical, plan: Submission.Plan) returns (lease: Option<Lease>, a: Answered)
      requires At(me, req, Reserving(canon, plan))
      modifies this
      ensures old(acts) <= acts
      ensures if lease.Some? then lease.value.canon == canon && At(me, req, Planned(req, lease.value, plan)) else At(me, req, Done(a.env, a.born))
      ensures Untroubled(old(script)) ==> Untroubled(script)
      ensures Smooth(old(script), 1) && req.rid !in old(core).db.receipts ==> lease.Some? && script == old(script)[1..] && Owns(core, req, lease.value)
    {
      if req.rid !in core.db.receipts { NewIsReserved(core, req, canon); }
      hide ReserveTx;
      hide EnvelopeFromReceipt;
      hide Planned;
      var ch := Others(me);
      ghost var before, pc := core, Reserving(canon, plan);
      var tx := ReserveTx(core.db, core.now, req, canon);
      var reply := Transact(req.rid, ch.fault, tx);
      lease, a := None, Answered(DuplicateEnvelope(req), None);
      if reply.None? {
        if ch.readable && req.rid in core.db.receipts {
          var row := core.db.receipts[req.rid];
          a := Answered(EnvelopeFromReceipt(req, canon, Some(row)), Some(row.born));
        } else {
          a := Answered(Failure(req, StBackendUnavailable), None);
        }
      } else if reply.value.tag.TConflict? {
      } else if !reply.value.tag.TReserved? || reply.value.row.None? {
        a := Answered(EnvelopeFromReceipt(req, canon, reply.value.row), BornOf(reply.value.row));
      } else {
        var granted := Lease(canon, reply.value.token, reply.value.row.value.born);
        Arrive(me, req, pc, before, ch, Planned(req, granted, plan));
        return Some(granted), a;
      }
      Arrive(me, req, pc, before, ch, Done(a.env, a.born));
    }

    // ----- Starting the send -----

    /** `_mark_request_send_started`: None when the send may begin. A held claim is released by the caller. */
    method MarkSendStarted(me: nat, req: Request, lease: Lease, held: Option<Hold>) returns (failure: Option<Answered>)
      requires At(me, req, Marking(lease, held))
      modifies this
      ensures old(acts) <= acts
      ensures failure.None? ==> At(me, req, Started(lease, held))
      ensures failure.Some? ==> At(me, req, if held.Some? then Releasing(lease, held.value, failure.value.env, failure.value.born)
                                            else Done(failure.value.env, failure.value.born))
      ensures Untroubled(old(script)) && failure.None? ==> Untroubled(script)
      ensures Smooth(old(script), 1) && Owns(old(core), req, lease) ==> failure.None? && script == old(script)[1..]
    {
      OwnedIsMarked(core, req, lease);
      hide MarkTx;
      hide EnvelopeFromReceipt;
      hide LeaseEnd;
      var ch := Others(me);
      ghost var before, pc := core, Marking(lease, held);
      var (db', reply) := MarkTx(core.db, core.now, req.rid, lease.canon, lease.token, core.policy.window, core.policy.ttl);
      if !ch.fault.RaisedBefore? { Mark(req, lease, db', reply); }
      if ch.fault.NoFault? && reply.tag.TStarted? {
        Arrive(me, req, pc, before, ch, Started(lease, held));
        return None;
      }
      if ch.fault.NoFault? && reply.row.Some? {
        var env := EnvelopeFromReceipt(req, lease.canon, reply.row);
        if !env.status.StUncertain? || reply.row.value.state.SendStarted? || reply.row.value.state.Uncertain? {
          var next := if held.Some? then Releasing(lease, held.value, env, BornOf(reply.row)) else Done(env, BornOf(reply.row));
          Arrive(me, req, pc, before, ch, next);
          return Some(Answered(env, BornOf(reply.row)));
        }
      }
      Arrive(me, req, pc, before, ch, Rereading(lease.canon, if held.Some? then ThenRelease(lease, held.value) else ThenReturn));
      var a := Reread(me, req, lease, held);
      return Some(a);
    }

    /** The commit of the send start, put on record. */
    method Mark(req: Request, lease: Lease, db': Db, reply: Reply)
      requires (db', reply) == MarkTx(core.db, core.now, req.rid, lease.canon, lease.token, core.policy.window, core.policy.ttl)
      modifies this`core
      ensures core == Marked(old(core), req, lease)
    {
      var at := core.now;
      core := Committed(core, req.rid, db');
      if reply.tag.TStarted? {
        core := core.(hist := core.hist.(starts := core.hist.starts + [Start(req.rid, lease.token, lease.born, at, LeaseEnd(reply.row, at))]));
      }
    }

    method Reread(me: nat, req: Request, lease: Lease, held: Option<Hold>) returns (a: Answered)
      requires At(me, req, Rereading(lease.canon, if held.Some? then ThenRelease(lease, held.value) else ThenReturn))
      modifies this
      ensures old(acts) <= acts
      ensures At(me, req, if held.Some? then Releasing(lease, held.value, a.env, a.born) else Done(a.env, a.born))
    {
      if held.None? { a := RecoverRequest(me, req, lease.canon); return; }
      var ch := Others(me);
      var row := if ch.fault.NoFault? then Lookup(core.db.receipts, req.rid) else None;
      a := Answered(EnvelopeFromReceipt(req, lease.canon, row), BornOf(row));
      Arrive(me, req, Rereading(lease.canon, ThenRelease(lease, held.value)), core, ch, Releasing(lease, held.value, a.env, a.born));
    }

    // ----- An instruction -----

    /** The backend call, on record. */
    method Send(req: Request, lease: Lease, outcome: Outcome)
      modifies this`core
      ensures core == Sent(old(core), req, lease, outcome)
    {
      core := core.(hist := core.hist.(sends := core.hist.sends + [Submission.Send(req.rid, lease.token, lease.born, outcome)]));
    }

    /** `_submit_instruction`. The look for a turn already observed, after the commit of the send start, is
        the one store call whose failure nothing catches. */
    method SubmitInstruction(me: nat, req: Request, lease: Lease) returns (a: Option<Answered>)
      requires At(me, req, Marking(lease, None))
      modifies this
      ensures Ended(me, req, a) && old(acts) <= acts
      ensures a.None? ==> procs[me].pc == Started(lease, None)
      ensures Untroubled(old(script)) ==> a.Some?
      ensures Smooth(old(script), 1) && |old(script)| > 1 && Owns(old(core), req, lease) ==> (a.None? <==> !old(script)[1].choice.fault.NoFault?)
    {
      var failure := MarkSendStarted(me, req, lease, None);
      if failure.Some? { return failure; }
      var ch := Others(me);
      if !ch.fault.NoFault? { return None; }
      var answer := PromptBackend(me, req, lease);
      return Some(answer);
    }

    method PromptBackend(me: nat, req: Request, lease: Lease) returns (a: Answered)
      requires At(me, req, Started(lease, None))
      modifies this
      ensures At(me, req, Done(a.env, a.born)) && old(acts) <= acts
    {
      hide FinishPc;
      var ch := Others(me);
      ghost var before, pc := core, Started(lease, None);
      Send(req, lease, Prompted(ch.reply));
      if ch.reply.WrittenToPty? {
        Arrive(me, req, pc, before, ch, Queueing(lease));
        a := RecordQueuedSend(me, req, lease);
        return;
      }
      var terminal, env := Uncertain, UnknownDeliveryEnvelope(req, if ch.reply.PromptStalled? then PromptStalled else UnknownVerdict);
      if ch.reply.Submitted? { terminal, env := Accepted, AcceptedEnvelope(req, Submitted, ch.turn); }
      else if DefiniteNonDelivery(ch.reply) { terminal, env := Rejected, NotDeliveredEnvelope(req, ch.reply); }
      Arrive(me, req, pc, before, ch, FinishPc(req, lease, SendStarted, terminal, env, None));
      a := FinishRequest(me, req, lease, SendStarted, terminal, env, None);
    }

    /** `_record_queued_send`. */
    method RecordQueuedSend(me: nat, req: Request, lease: Lease) returns (a: Answered)
      requires At(me, req, Queueing(lease))
      modifies this
      ensures At(me, req, Done(a.env, a.born)) && old(acts) <= acts
    {
      var ch := Others(me);
      a := Conclude(me, req, lease.canon, Queueing(lease), ch,
                    QueueTx(core.db, core.now, req.rid, lease.canon, lease.token, QueuedEnvelope(req)));
    }

    // ----- An answer to a pending question -----

    /** The claim: granted on the very route that was validated, or the status it fails with. */
    method ClaimQuestion(me: nat, req: Request, lease: Lease, route: Route) returns (hold: Option<Hold>, busy: bool, env: Envelope)
      requires At(me, req, Claiming(lease, route))
      modifies this
      ensures old(acts) <= acts
      ensures hold.Some? ==> At(me, req, Marking(lease, hold))
      ensures hold.None? && busy ==> At(me, req, Yielding(lease))
      ensures hold.None? && !busy ==>
                At(me, req, FinishPc(req, lease, Reserved, if env.status.StUncertain? then Uncertain else Rejected, env, None))
    {
      hide ClaimTx;
      hide FinishPc;
      var ch := Others(me);
      ghost var before, pc := core, Claiming(lease, route);
      var (db', verdict) := ClaimTx(core.db, core.now, lease.canon.worker, lease.canon.body, ch.fingerprint);
      hold, busy, env := None, false, UncertainWith(req, ClaimUncertain);
      if !ch.fault.RaisedBefore? { core := core.(db := db'); }
      if !ch.fault.NoFault? {
        Arrive(me, req, pc, before, ch, FinishPc(req, lease, Reserved, Uncertain, env, None));
        return;
      }
      if verdict.ClaimGranted? && verdict.route == route {
        hold := Some(Hold(verdict.token, route, verdict.revision, core.now));
        Arrive(me, req, pc, before, ch, Marking(lease, hold));
        return;
      }
      if verdict.ClaimBusy? && req.action.AnswerDecision? {
        busy := true;
        Arrive(me, req, pc, before, ch, Yielding(lease));
        return;
      }
      env := Failure(req, RefusalStatus(req, ch));
      Arrive(me, req, pc, before, ch, FinishPc(req, lease, Reserved, Rejected, env, None));
    }

    /** `_abandon_request_reservation`. */
    method YieldReservation(me: nat, req: Request, lease: Lease) returns (a: Answered)
      requires At(me, req, Yielding(lease))
      modifies this
      ensures At(me, req, Done(a.env, a.born)) && old(acts) <= acts
    {
      var ch := Others(me);
      ghost var before := core;
      if !ch.fault.RaisedBefore? { core := core.(db := YieldTx(core.db, core.now, req.rid, lease.canon, lease.token)); }
      a := Answered(AnsweredElsewhereEnvelope(req, true), None);
      Arrive(me, req, Yielding(lease), before, ch, Done(a.env, a.born));
    }

    /** The send did not start: give the claim back, and say so. */
    method ReleaseClaim(me: nat, req: Request, lease: Lease, hold: Hold, failure: Answered) returns (a: Answered)
      requires At(me, req, Releasing(lease, hold, failure.env, failure.born))
      modifies this
      ensures At(me, req, Done(a.env, a.born)) && old(acts) <= acts
    {
      hide ReleaseClaimTx;
      hide FinishPc;
      var ch := Others(me);
      ghost var before, pc := core, Releasing(lease, hold, failure.env, failure.born);
      var (db', dropped) := ReleaseClaimTx(core.db, hold.route.worker, hold.claim);
      if !ch.fault.RaisedBefore? { core := core.(db := db'); }
      var released := ch.fault.NoFault? && dropped;
      if failure.env.status.StPending? && !released {
        Arrive(me, req, pc, before, ch, FinishPc(req, lease, Reserved, Uncertain, UncertainWith(req, ClaimNotReleased), None));
        a := FinishBeforeSend(me, req, lease, UncertainWith(req, ClaimNotReleased));
        return;
      }
      Arrive(me, req, pc, before, ch, Done(failure.env, failure.born));
      return failure;
    }

    /** Cross the pane-input boundary, exactly on the claimed route. */
    method StartInput(me: nat, req: Request, lease: Lease, hold: Hold) returns (started: bool)
      requires At(me, req, Started(lease, Some(hold)))
      modifies this
      ensures At(me, req, if started then Typing(lease, hold) else Dropping(lease, hold)) && old(acts) <= acts
    {
      hide StartClaimTx;
      var ch := Others(me);
      ghost var before, pc := core, Started(lease, Some(hold));
      var worker := hold.route.worker;
      var (db', route) := StartClaimTx(core.db, core.now, worker, hold.claim, ch.fingerprint);
      if !ch.fault.RaisedBefore? {
        if route.Some? { Cross(req, lease, hold); }
        core := core.(db := db');
      }
      started := ch.fault.NoFault? && route == Some(hold.route);
      Arrive(me, req, pc, before, ch, if started then Typing(lease, hold) else Dropping(lease, hold));
    }

    /** The crossing, on record. */
    method Cross(req: Request, lease: Lease, hold: Hold)
      modifies this`core
      ensures core == old(core).(hist := old(core).hist.(crossings := old(core).hist.crossings +
        [Crossing(hold.route.worker, hold.revision, EpisodeOf(old(core).db.episodes, hold.route.worker), hold.claim, req.rid, lease.token, lease.born, old(core).now)]))
    {
      var crossing := Crossing(hold.route.worker, hold.revision, EpisodeOf(core.db.episodes, hold.route.worker), hold.claim, req.rid,
                               lease.token, lease.born, core.now);
      core := core.(hist := core.hist.(crossings := core.hist.crossings + [crossing]));
    }

    /** `_answer_pending` and `_answer_decision`, which differ in how a lost claim is answered. */
    method AnswerQuestion(me: nat, req: Request, lease: Lease, route: Route) returns (a: Answered)
      requires At(me, req, Claiming(lease, route))
      modifies this
      ensures At(me, req, Done(a.env, a.born)) && old(acts) <= acts
    {
      var hold, busy, env := ClaimQuestion(me, req, lease, route);
      if hold.None? {
        if busy { a := YieldReservation(me, req, lease); }
        else { a := FinishBeforeSend(me, req, lease, env); }
        return;
      }
      var failure := MarkSendStarted(me, req, lease, hold);
      if failure.Some? {
        a := ReleaseClaim(me, req, lease, hold.value, failure.value);
        return;
      }
      var started := StartInput(me, req, lease, hold.value);
      if !started { a := DropClaim(me, req, lease, hold.value); }
      else { a := TypeAnswer(me, req, lease, hold.value); }
    }

    /** The input never began: give the claim back and finish as uncertain. */
    method DropClaim(me: nat, req: Request, lease: Lease, hold: Hold) returns (a: Answered)
      requires At(me, req, Dropping(lease, hold))
      modifies this
      ensures At(me, req, Done(a.env, a.born)) && old(acts) <= acts
    {
      hide ReleaseClaimTx;
      hide FinishPc;
      var ch := Others(me);
      ghost var before := core;
      var (db', _) := ReleaseClaimTx(core.db, hold.route.worker, hold.claim);
      if !ch.fault.RaisedBefore? { core := core.(db := db'); }
      Arrive(me, req, Dropping(lease, hold), before, ch, FinishPc(req, lease, SendStarted, Uncertain, UncertainWith(req, StartUncertain), None));
      a := FinishRequest(me, req, lease, SendStarted, Uncertain, UncertainWith(req, StartUncertain), None);
    }

    /** The pane input; an accepted answer closes its question in the same transaction. */
    method TypeAnswer(me: nat, req: Request, lease: Lease, hold: Hold) returns (a: Answered)
      requires At(me, req, Typing(lease, hold))
      modifies this
      ensures At(me, req, Done(a.env, a.born)) && old(acts) <= acts
    {
      hide FinishPc;
      var ch := Others(me);
      ghost var before := core;
      Send(req, lease, Typed(hold.claim, ch.typed));
      var terminal, env, effect := Uncertain, UncertainWith(req, InputUncertain), None;
      if ch.typed { terminal, env, effect := Accepted, AcceptedEnvelope(req, NoVerdict, None), Some((hold.claim, hold.route.worker)); }
      Arrive(me, req, Typing(lease, hold), before, ch, FinishPc(req, lease, SendStarted, terminal, env, effect));
      a := FinishRequest(me, req, lease, SendStarted, terminal, env, effect);
    }

    // ----- An existing receipt -----

    /** `_receipt_authority`: the answer, or the worker of an abandoned reservation to take over. */
    method DecideByReceipt(me: nat, req: Request, row: Receipt) returns (answer: Option<Answered>, takeover: Option<WorkerId>)
      requires At(me, req, Deciding(row))
      modifies this
      ensures old(acts) <= acts
      ensures if answer.Some? then At(me, req, Done(answer.value.env, answer.value.born)) else takeover.Some? && At(me, req, Preparing(takeover))
      ensures Untroubled(old(script)) && answer.None? ==> Untroubled(script)
    {
      hide EnvelopeFromReceipt;
      hide ProveWorker;
      var ch := Others(me);
      ghost var pc := Deciding(row);
      takeover := None;
      if row.canon.action != req.action { answer := Tell(me, req, row, ch, DuplicateEnvelope(req)); return; }
      var proof := ProveWorker(req, row, ch.authority);
      if proof.Different? { answer := Tell(me, req, row, ch, DuplicateEnvelope(req)); return; }
      if proof.Unprovable? { answer := Tell(me, req, row, ch, UncertainWith(req, TargetUnprovable)); return; }
      var canon := CanonicalFor(req, proof.worker);
      var replay := EnvelopeFromReceipt(req, canon, Some(row));
      if IsTerminal(row.state) {
        if replay.status.StDuplicateRequest? { answer := Tell(me, req, row, ch, replay); return; }
        Arrive(me, req, pc, core, ch, Replaying(canon, row, replay));
        var a := ReserveTerminalReplay(me, req, canon, row, replay);
        return Some(a), None;
      }
      if !replay.status.StPending? { answer := Tell(me, req, row, ch, replay); return; }
      if row.state.SendStarted? && replay.verdict.WrittenToPty? {
        Arrive(me, req, pc, core, ch, Settling(canon, row, replay));
        var a := SettleQueued(me, req, canon, row, replay);
        return Some(a), None;
      }
      if Live(row, core.now) { answer := Tell(me, req, row, ch, replay); return; }
      if row.state.SendStarted? {
        Arrive(me, req, pc, core, ch, Recovering(canon, row, replay));
        var a := RecoverSend(me, req, canon, row, replay);
        return Some(a), None;
      }
      takeover := Some(proof.worker);
      Arrive(me, req, pc, core, ch, Preparing(takeover));
      return None, takeover;
    }

    method Tell(me: nat, req: Request, row: Receipt, ghost ch: Choice, env: Envelope) returns (answer: Option<Answered>)
      requires At(me, req, Deciding(row)) && Authority(req, row, ch.authority, core.now) == Decision.Tell(env)
      modifies this
      ensures answer == Some(Answered(env, Some(row.born))) && At(me, req, Done(env, Some(row.born))) && old(acts) <= acts
    {
      hide Authority;
      Arrive(me, req, Deciding(row), core, ch, Done(env, Some(row.born)));
      return Some(Answered(env, Some(row.born)));
    }

    /** An expired send: its outcome is unknown, unless its row has changed. */
    method RecoverSend(me: nat, req: Request, canon: Canonical, row: Receipt, replay: Envelope) returns (a: Answered)
      requires At(me, req, Recovering(canon, row, replay))
      modifies this
      ensures At(me, req, Done(a.env, a.born)) && old(acts) <= acts
    {
      var ch := Others(me);
      a := ConcludeOr(me, req, canon, Recovering(canon, row, replay), ch,
                      RecoverTx(core.db, core.now, req.rid, canon, row.result, RecoveredEnvelope(req)), Answered(replay, Some(row.born)));
    }

    method ConcludeOr(me: nat, req: Request, canon: Canonical, ghost pc: Pc, ch: Choice, tx: (Db, Reply), otherwise: Answered) returns (a: Answered)
      requires At(me, req, pc)
      requires Advance(core, req, pc, ch) == Concluded(core, req, canon, ch.fault, tx, Done(otherwise.env, otherwise.born))
      modifies this
      ensures At(me, req, Done(a.env, a.born)) && old(acts) <= acts
    {
      hide Advance;
      hide Attempt;
      ghost var before := core;
      var reply := Transact(req.rid, ch.fault, tx);
      a := if reply.None? then otherwise else Answered(EnvelopeFromReceipt(req, canon, reply.value.row), BornOf(reply.value.row));
      Arrive(me, req, pc, before, ch, Done(a.env, a.born));
    }

    /** A queued send: settle its link, look at it, and finish the row if it was decided. */
    method SettleQueued(me: nat, req: Request, canon: Canonical, row: Receipt, replay: Envelope) returns (a: Answered)
      requires At(me, req, Settling(canon, row, replay))
      modifies this
      ensures At(me, req, Done(a.env, a.born)) && old(acts) <= acts
    {
      hide SettleTx;
      var ch := Others(me);
      ghost var before, pc := core, Settling(canon, row, replay);
      var db' := SettleTx(core.db, core.now, req.rid, ch.link);
      if !ch.fault.RaisedBefore? { core := core.(db := db'); }
      if !ch.fault.NoFault? {
        Arrive(me, req, pc, before, ch, Done(replay, Some(row.born)));
        return Answered(replay, Some(row.born));
      }
      var settled := if req.rid in db'.ledger then Some(db'.ledger[req.rid].state) else None;
      Arrive(me, req, pc, before, ch, Linking(canon, row, replay, settled));
      a := ReadLink(me, req, canon, row, replay, settled);
    }

    method ReadLink(me: nat, req: Request, canon: Canonical, row: Receipt, replay: Envelope, settled: Option<LedgerState>) returns (a: Answered)
      requires At(me, req, Linking(canon, row, replay, settled))
      modifies this
      ensures At(me, req, Done(a.env, a.born)) && old(acts) <= acts
    {
      var ch := Others(me);
      ghost var pc := Linking(canon, row, replay, settled);
      var verdict := None;
      if ch.fault.NoFault? {
        if req.rid in core.db.ledger && core.db.ledger[req.rid].state.LLinked? && ch.turn.Some? {
          verdict := Some(AcceptedEnvelope(req, WrittenToPty, ch.turn));
        } else if settled == Some(LAmbiguous) || settled == Some(LExpired) {
          verdict := Some(ExpiredQueueEnvelope(req));
        }
      }
      if verdict.None? {
        Arrive(me, req, pc, core, ch, Done(replay, Some(row.born)));
        return Answered(replay, Some(row.born));
      }
      Arrive(me, req, pc, core, ch, Concluding(canon, row, replay, verdict.value));
      a := FinishQueued(me, req, canon, row, replay, verdict.value);
    }

    method FinishQueued(me: nat, req: Request, canon: Canonical, row: Receipt, replay: Envelope, verdict: Envelope) returns (a: Answered)
      requires At(me, req, Concluding(canon, row, replay, verdict))
      modifies this
      ensures At(me, req, Done(a.env, a.born)) && old(acts) <= acts
    {
      var ch := Others(me);
      var tx := if verdict.ok then FinishQueuedTx(core.db, core.now, req.rid, canon, row.result, verdict)
                else FinishUnverifiedTx(core.db, core.now, req.rid, canon, row.result, verdict);
      a := ConcludeOr(me, req, canon, Concluding(canon, row, replay, verdict), ch, tx, Answered(replay, Some(row.born)));
    }

    // ----- The whole call -----

    /** Reserve under the plan, and carry it out. */
    method ReserveAndAct(me: nat, req: Request, canon: Canonical, plan: Submission.Plan) returns (a: Option<Answered>)
      requires At(me, req, Reserving(canon, plan)) && (plan.Refuse? ==> !plan.status.StUncertain?)
      modifies this
      ensures Ended(me, req, a) && old(acts) <= acts
      ensures Untroubled(old(script)) ==> a.Some?
      ensures plan.Prompt? && NewAndSmooth(old(core), req, old(script), 2) ==> (a.None? <==> !old(script)[2].choice.fault.NoFault?)
    {
      var lease, answer := ReserveCanonical(me, req, canon, plan);
      if lease.None? { return Some(answer); }
      match plan
      case Refuse(st) =>
        answer := FinishBeforeSend(me, req, lease.value, Failure(req, st));
        return Some(answer);
      case Prompt => a := SubmitInstruction(me, req, lease.value);
      case Answer(route) =>
        answer := AnswerQuestion(me, req, lease.value, route);
        return Some(answer);
    }

    /** The part of `_submit_command_v2` after the receipt check: resolve, prepare, reserve, act. */
    method Prepare(me: nat, req: Request, takeover: Option<WorkerId>) returns (a: Option<Answered>)
      requires At(me, req, Preparing(takeover))
      modifies this
      ensures Ended(me, req, a) && old(acts) <= acts
      ensures Untroubled(old(script)) ==> a.Some?
      ensures takeover.None? && req.action.SendInstruction? && NewAndSmooth(old(core), req, old(script), 3) && ReadyTurn(old(script)[0])
              ==> (a.None? <==> !old(script)[3].choice.fault.NoFault?)
    {
      var ch := Others(me);
      if ch.prep.Resolved? { a := PrepareFor(me, req, takeover, ch, Meant(req, ch.prep.worker), ch.prep.how); return; }
      if ch.prep.Unresolved? {
        var st := ch.prep.status;
        if takeover.None? && LiveFailure(st) && (st.StAnswerInProgress? ==> req.action.AnswerDecision?) {
          a := Leave(me, req, takeover, ch, Failure(req, st));
          return;
        }
        if takeover.Some? && st.StAnswerInProgress? && req.action.AnswerDecision? {
          a := Leave(me, req, takeover, ch, AnsweredElsewhereEnvelope(req, true));
          return;
        }
        if takeover.Some? && !req.action.SendInstruction? && DurableRejection(st) {
          a := GoOn(me, req, takeover, ch, CanonicalFor(req, takeover.value), Refuse(st));
          return;
        }
      }
      a := Leave(me, req, takeover, ch, Unready(req, takeover));
    }

    /** The target is proven to be `worker`. */
    method PrepareFor(me: nat, req: Request, takeover: Option<WorkerId>, ch: Choice, worker: WorkerId, how: How) returns (a: Option<Answered>)
      requires At(me, req, Preparing(takeover)) && ch.prep.Resolved? && ch.prep.how == how && worker == Meant(req, ch.prep.worker)
      modifies this
      ensures Ended(me, req, a) && old(acts) <= acts
      ensures Untroubled(old(script)) ==> a.Some?
      ensures takeover.None? && req.action.SendInstruction? && how.Ready? && NewAndSmooth(old(core), req, old(script), 2)
              ==> (a.None? <==> !old(script)[2].choice.fault.NoFault?)
    {
      if takeover.Some? && worker != takeover.value {
        if req.action.SendInstruction? { a := Leave(me, req, takeover, ch, DuplicateEnvelope(req)); }
        else { a := GoOn(me, req, takeover, ch, CanonicalFor(req, takeover.value), Refuse(StDuplicateRequest)); }
        return;
      }
      var canon := CanonicalFor(req, worker);
      if how.Ready? { a := GoOn(me, req, takeover, ch, canon, if req.action.SendInstruction? then Prompt else Answer(how.route)); }
      else if how.Permanent? && DurableRejection(how.status) { a := GoOn(me, req, takeover, ch, canon, Refuse(how.status)); }
      else { a := Leave(me, req, takeover, ch, Unready(req, takeover)); }
    }

    /** Answer without having written anything. */
    method Leave(me: nat, req: Request, takeover: Option<WorkerId>, ghost ch: Choice, env: Envelope) returns (a: Option<Answered>)
      requires At(me, req, Preparing(takeover)) && StepPreparing(core, req, takeover, ch) == (core, Done(env, None))
      modifies this
      ensures Ended(me, req, a) && old(acts) <= acts && a.Some?
    {
      hide StepPreparing;
      Arrive(me, req, Preparing(takeover), core, ch, Done(env, None));
      return Some(Answered(env, None));
    }

    method GoOn(me: nat, req: Request, takeover: Option<WorkerId>, ghost ch: Choice, canon: Canonical, plan: Submission.Plan) returns (a: Option<Answered>)
      requires At(me, req, Preparing(takeover)) && StepPreparing(core, req, takeover, ch) == (core, Reserving(canon, plan))
      requires plan.Refuse? ==> !plan.status.StUncertain?
      modifies this
      ensures Ended(me, req, a) && old(acts) <= acts
      ensures Untroubled(old(script)) ==> a.Some?
      ensures plan.Prompt? && NewAndSmooth(old(core), req, old(script), 2) ==> (a.None? <==> !old(script)[2].choice.fault.NoFault?)
    {
      hide StepPreparing;
      Arrive(me, req, Preparing(takeover), core, ch, Reserving(canon, plan));
      a := ReserveAndAct(me, req, canon, plan);
    }

    /** `submit_command` for a mutation. From any state the system can be in, a final answer is the state
        committed for the row it was read from, and the store is as every run keeps it. If the call raises
        instead, its send start is on record and it has not called the backend. It never raises if no call
        of the store fails; and if it goes smoothly up to the look for a turn already observed, it raises
        exactly if that look fails. */
    method Submit(me: nat, req: Request) returns (a: Option<Answered>)
      requires Valid() && Alone(me) && me !in procs
      modifies this
      ensures Ended(me, req, a) && old(acts) <= acts
      ensures FromScratch(start) ==> CoreOk(core) && (a.Some? ==> AnswerOk(core, a.value.env, a.value.born))
      ensures FromScratch(start) && a.None? ==> StartedUnsent(core, req, procs[me].pc.lease)
      ensures Untroubled(old(script)) ==> a.Some?
      ensures req.action.SendInstruction? && NewAndSmooth(old(core), req, old(script), 4) && ReadyTurn(old(script)[1])
              ==> (a.None? <==> !old(script)[4].choice.fault.NoFault?)
    {
      a := SubmitMutation(me, req);
      CodeIsSafe(start, acts, System(core, procs));
    }

    method SubmitMutation(me: nat, req: Request) returns (a: Option<Answered>)
      requires Valid() && Alone(me) && me !in procs
      modifies this
      ensures Ended(me, req, a) && old(acts) <= acts
      ensures Untroubled(old(script)) ==> a.Some?
      ensures req.action.SendInstruction? && NewAndSmooth(old(core), req, old(script), 4) && ReadyTurn(old(script)[1])
              ==> (a.None? <==> !old(script)[4].choice.fault.NoFault?)
    {
      ghost var turns := script;
      if NewAndSmooth(core, req, turns, 4) { SmoothRest(core, req, turns, 4); }
      if Untroubled(turns) { UntroubledRest(turns); }
      hide *;
      var row := EnterAndRead(me, req);
      if row.None? { a := Prepare(me, req, None); return; }
      var answer, takeover := DecideByReceipt(me, req, row.value);
      if answer.Some? { return answer; }
      a := Prepare(me, req, takeover);
    }

    /** Arrive, and read the receipt; a failed read counts as no receipt. */
    method EnterAndRead(me: nat, req: Request) returns (row: Option<Receipt>)
      requires Valid() && Alone(me) && me !in procs
      modifies this
      ensures At(me, req, if row.Some? then Deciding(row.value) else Preparing(None)) && old(acts) <= acts
      ensures script == (if old(script) == [] then [] else old(script)[1..])
      ensures old(script) != [] && old(script)[0].others == [] ==> core == old(core) && (req.rid !in core.db.receipts ==> row.None?)
    {
      hide EnvelopeFromReceipt;
      ghost var more := acts + [Enter(me, req)];
      assert more[..|more| - 1] == acts;
      procs, acts := procs[me := Proc(req, Reading)], more;
      var ch := Others(me);
      row := if ch.fault.NoFault? && req.rid in core.db.receipts then Some(core.db.receipts[req.rid]) else None;
      Arrive(me, req, Reading, core, ch, if row.Some? then Deciding(row.value) else Preparing(None));
    }
  }

  /** The row for this request is the one reserved under this lease. */
  predicate Owns(c: Core, req: Request, lease: Lease) {
    && req.rid in c.db.receipts && c.db.receipts[req.rid].state.Reserved?
    && c.db.receipts[req.rid].owner == Some(lease.token) && c.db.receipts[req.rid].canon == lease.canon
  }

  /** The request has no receipt, and the next n calls go smoothly; then comes one more. */
  predicate NewAndSmooth(c: Core, req: Request, script: seq<Turn>, n: nat) {
    req.rid !in c.db.receipts && Smooth(script, n) && n < |script|
  }

  lemma {:induction false} SmoothRest(c: Core, req: Request, script: seq<Turn>, n: nat)
    requires n > 0 && NewAndSmooth(c, req, script, n)
    ensures NewAndSmooth(c, req, script[1..], n - 1) && script[0].others == [] && script[0].choice.fault.NoFault? && req.rid !in c.db.receipts
    ensures n < |script| && forall i :: 0 <= i < |script| - 1 ==> script[1..][i] == script[i + 1]
  {
  }

  lemma {:induction false} UntroubledRest(script: seq<Turn>)
    requires Untroubled(script)
    ensures Untroubled(if script == [] then [] else script[1..])
  {
  }

  predicate ReadyTurn(turn: Turn) {
    turn.choice.prep.Resolved? && turn.choice.prep.how.Ready?
  }

  lemma {:induction false} NewIsReserved(c: Core, req: Request, canon: Canonical)
    requires req.rid !in c.db.receipts
    ensures var (db', reply) := ReserveTx(c.db, c.now, req, canon);
            && reply.tag.TReserved? && reply.row.Some?
            && Owns(Committed(c, req.rid, db'), req, Lease(canon, reply.token, reply.row.value.born))
  {
  }

  lemma {:induction false} OwnedIsMarked(c: Core, req: Request, lease: Lease)
    ensures Owns(c, req, lease) ==>
              MarkTx(c.db, c.now, req.rid, lease.canon, lease.token, c.policy.window, c.policy.ttl).1.tag.TStarted?
  {
  }

  /** The send start is on record, and no backend call under it. */
  ghost predicate StartedUnsent(c: Core, req: Request, lease: Lease) {
    StartedBy(c, req.rid, lease.token, lease.born) && NoSend(c, lease.token)
  }

  ghost predicate FromScratch(s: System) {
    ValidPolicy(s.core.policy) && s == Initial(s.core.policy)
  }

  lemma {:induction false} CodeIsSafe(start: System, acts: seq<Act>, s: System)
    requires Run(start, acts) == s
    ensures FromScratch(start) ==> CoreOk(s.core) && forall pid :: pid in s.procs ==> ProcOk(s.core, s.procs[pid].req, s.procs[pid].pc)
  {
    if FromScratch(start) { RunOk(start.core.policy, acts); }
  }

  /** Nothing is proven against the target, so the request stays open: as an abandoned reservation still
      in progress, or without any receipt. */
  function Unready(req: Request, takeover: Option<WorkerId>): Envelope {
    if takeover.Some? then InProgressEnvelope(req) else Failure(req, StBackendUnavailable)
  }

  const LOOK_FAILS := FAIR_WEATHER.(fault := RaisedBefore)

  /** A call that raises: an instruction to worker 7 goes smoothly until the look after its send start, which
      fails. */
  method RaisingCall(policy: Policy) returns (s: Service, a: Option<Answered>)
    requires ValidPolicy(policy)
    ensures fresh(s) && s.Valid() && FromScratch(s.start) && a.None? && 0 in s.procs && s.procs[0].pc.Started?
            && StartedUnsent(s.core, s.procs[0].req, s.procs[0].pc.lease)
  {
    var calm := Turn([], FAIR_WEATHER.(prep := Resolved(7, Ready(Route(7, 0, 0, 0, 0)))));
    s := new Service(Initial(policy), [calm, calm, calm, calm, Turn([], LOOK_FAILS)]);
    assert s.script[4].choice == LOOK_FAILS;
    a := s.Submit(0, Request(0, SendInstruction, Explicit(7), 0));
  }
}
