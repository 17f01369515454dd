/** How the preparation of an instruction is classified before anything is reserved
    (src/tendwire/command_submission.py): proven unsuitable, safely retryable, or ready. */
module InstructionPreparation {
  import opened Options
  import opened Envelopes
  import opened CommandStore
  import opened Submission

  /** A private binding row: whose it is, whether a prompt can be sent to it, why not, and whether it has a
      durable identity. */
  datatype Binding = Binding(worker: WorkerId, fingerprint: nat, sendable: bool, ambiguousReason: bool, identified: bool)

  datatype Resolved = Found(binding: Binding) | NotFound(status: Status)

  /** What the request to resolve the pane comes back with. */
  datatype PaneReply =
    | Pane | NoPane | ErrorResponse
    | ConnectionFailed | TimedOut | Disconnected | BadFraming | SystemError
    | Unsupported | OtherFailure

  /** All that preparation looks at. `bindings` is None if their store raised. */
  datatype Evidence = Evidence(statusAllowed: bool, healthy: bool, bindings: Option<seq<Binding>>, connects: bool, pane: PaneReply)

  function OfWorker(bindings: seq<Binding>, worker: WorkerId): (own: seq<Binding>)
    ensures forall b :: b in own <==> b in bindings && b.worker == worker
  {
    if bindings == [] then []
    else (if bindings[0].worker == worker then [bindings[0]] else []) + OfWorker(bindings[1..], worker)
  }

  function WithFingerprint(bindings: seq<Binding>, fingerprint: nat): (exact: seq<Binding>)
    ensures forall b :: b in exact <==> b in bindings && b.fingerprint == fingerprint
  {
    if bindings == [] then []
    else (if bindings[0].fingerprint == fingerprint then [bindings[0]] else []) + WithFingerprint(bindings[1..], fingerprint)
  }

  /** `_binding_for_worker`. */
  function BindingForWorker(worker: WorkerId, fingerprint: nat, bindings: seq<Binding>): Resolved {
    var own := OfWorker(bindings, worker);
    var exact := WithFingerprint(own, fingerprint);
    if own == [] then NotFound(StBackendUnsupported)
    else if exact == [] then NotFound(StStaleTarget)
    else if |exact| != 1 then NotFound(StAmbiguousBackendTarget)
    else if !exact[0].sendable then NotFound(if exact[0].ambiguousReason then StAmbiguousBackendTarget else StBackendUnsupported)
    else Found(exact[0])
  }

  /** `_resolve_private_pane`; None when there is a pane. */
  function PaneFailure(reply: PaneReply): Option<How> {
    match reply
    case Pane => None
    case ConnectionFailed => Some(Transient)
    case TimedOut => Some(Transient)
    case Disconnected => Some(Transient)
    case BadFraming => Some(Transient)
    case SystemError => Some(Transient)
    case _ => Some(Permanent(StBackendFailed))
  }

  /** `_prepare_instruction`. */
  function PrepareInstruction(worker: WorkerId, fingerprint: nat, seen: Evidence, route: Route): How {
    match seen.bindings
    case None => Transient
    case Some(bindings) =>
      match BindingForWorker(worker, fingerprint, bindings)
      case NotFound(status) => Permanent(status)
      case Found(binding) =>
        if !binding.identified then Permanent(StBackendUnsupported)
        else if !seen.connects then Transient
        else match PaneFailure(seen.pane) case Some(failure) => failure case None => Ready(route)
  }

  /** The instruction's part of `_submit_command_v2` between resolution and reservation. */
  function Classified(worker: WorkerId, fingerprint: nat, seen: Evidence, route: Route): How {
    if !seen.statusAllowed then Permanent(StRejected)
    else if !seen.healthy then Permanent(StBackendUnavailable)
    else PrepareInstruction(worker, fingerprint, seen, route)
  }

  // ----- What the classes mean -----

  predicate Fits(b: Binding, worker: WorkerId, fingerprint: nat) {
    b.worker == worker && b.fingerprint == fingerprint
  }

  /** Exactly one row is this worker's under this fingerprint. */
  ghost predicate OnlyBinding(bindings: seq<Binding>, worker: WorkerId, fingerprint: nat, i: nat) {
    && i < |bindings| && Fits(bindings[i], worker, fingerprint)
    && forall j :: 0 <= j < |bindings| && j != i ==> !Fits(bindings[j], worker, fingerprint)
  }

  function Fitting(bindings: seq<Binding>, worker: WorkerId, fingerprint: nat): (exact: seq<Binding>) {
    WithFingerprint(OfWorker(bindings, worker), fingerprint)
  }

  /** A binding is found exactly if it is the only current one and can be sent to. */
  lemma {:induction false} FoundIsTheOnlyOne(worker: WorkerId, fingerprint: nat, bindings: seq<Binding>, b: Binding)
    ensures BindingForWorker(worker, fingerprint, bindings) == Found(b)
            <==> exists i: nat :: OnlyBinding(bindings, worker, fingerprint, i) && bindings[i] == b && b.sendable
  {
    if BindingForWorker(worker, fingerprint, bindings) == Found(b) {
      var i := TheOnly(bindings, worker, fingerprint);
    }
    if i: nat :| OnlyBinding(bindings, worker, fingerprint, i) && bindings[i] == b && b.sendable {
      OnlyIsFitting(bindings, worker, fingerprint, i);
      assert b in Fitting(bindings, worker, fingerprint);
    }
  }

  lemma {:induction false} TheOnly(bindings: seq<Binding>, worker: WorkerId, fingerprint: nat) returns (i: nat)
    requires |Fitting(bindings, worker, fingerprint)| == 1
    ensures OnlyBinding(bindings, worker, fingerprint, i) && bindings[i] == Fitting(bindings, worker, fingerprint)[0]
  {
    HeadOrNot(bindings, worker, fingerprint);
    var rest := bindings[1..];
    if Fits(bindings[0], worker, fingerprint) {
      forall j | 1 <= j < |bindings| ensures !Fits(bindings[j], worker, fingerprint) {
        assert bindings[j] == rest[j - 1];
        FitsIsFitting(rest, worker, fingerprint, j - 1);
      }
      return 0;
    }
    var k := TheOnly(rest, worker, fingerprint);
    forall j | 1 <= j < |bindings| && j != k + 1 ensures !Fits(bindings[j], worker, fingerprint) { assert bindings[j] == rest[j - 1]; }
    return k + 1;
  }

  lemma {:induction false} FitsIsFitting(bindings: seq<Binding>, worker: WorkerId, fingerprint: nat, k: nat)
    requires k < |bindings|
    ensures Fits(bindings[k], worker, fingerprint) ==> bindings[k] in Fitting(bindings, worker, fingerprint)
  {
    assert bindings[k] in bindings;
  }

  lemma {:induction false} OnlyIsFitting(bindings: seq<Binding>, worker: WorkerId, fingerprint: nat, i: nat)
    requires OnlyBinding(bindings, worker, fingerprint, i)
    ensures Fitting(bindings, worker, fingerprint) == [bindings[i]]
    decreases |bindings|
  {
    HeadOrNot(bindings, worker, fingerprint);
    var rest := bindings[1..];
    forall j | 0 <= j < |rest| && j + 1 != i ensures !Fits(rest[j], worker, fingerprint) { assert rest[j] == bindings[j + 1]; }
    if i == 0 {
      var others := Fitting(rest, worker, fingerprint);
      assert |others| > 0 ==> others[0] in others && others[0] in rest && Fits(others[0], worker, fingerprint);
    } else {
      OnlyIsFitting(rest, worker, fingerprint, i - 1);
    }
  }

  lemma {:induction false} HeadOrNot(bindings: seq<Binding>, worker: WorkerId, fingerprint: nat)
    ensures var exact := Fitting(bindings, worker, fingerprint);
            if bindings == [] then exact == []
            else exact == (if Fits(bindings[0], worker, fingerprint) then [bindings[0]] else []) + Fitting(bindings[1..], worker, fingerprint)
  {
    if bindings != [] {
      var own, rest := OfWorker(bindings, worker), OfWorker(bindings[1..], worker);
      if bindings[0].worker == worker { assert own[0] == bindings[0] && own[1..] == rest; }
      else { assert own == rest && [] + WithFingerprint(rest, fingerprint) == WithFingerprint(rest, fingerprint); }
    }
  }

  /** The one current binding row is usable as it stands. */
  ghost predicate Bound(bindings: seq<Binding>, worker: WorkerId, fingerprint: nat) {
    exists i: nat :: OnlyBinding(bindings, worker, fingerprint, i) && bindings[i].sendable && bindings[i].identified
  }

  /** The request to the pane was not answered, as opposed to answered with a refusal. */
  predicate Unanswered(reply: PaneReply) {
    reply in {ConnectionFailed, TimedOut, Disconnected, BadFraming, SystemError}
  }

  /** An operation failed before anything could be learnt against the target. */
  ghost predicate OperationFailed(worker: WorkerId, fingerprint: nat, seen: Evidence) {
    && seen.statusAllowed && seen.healthy
    && (seen.bindings.None? || (Bound(seen.bindings.value, worker, fingerprint) && (!seen.connects || Unanswered(seen.pane))))
  }

  /** A failure is retryable exactly if an operation failed with nothing known against the target; every other
      one is a durable rejection, and without either the instruction is ready. */
  lemma {:induction false} TransientMeansNothingIsKnown(worker: WorkerId, fingerprint: nat, seen: Evidence, route: Route)
    ensures var how := Classified(worker, fingerprint, seen, route);
            && (how.Transient? <==> OperationFailed(worker, fingerprint, seen))
            && (how == Ready(route) <==> seen.statusAllowed && seen.healthy && seen.bindings.Some?
                                         && Bound(seen.bindings.value, worker, fingerprint) && seen.connects && seen.pane.Pane?)
            && (how.Ready? ==> how == Ready(route))
            && (how.Permanent? ==> DurableRejection(how.status))
  {
    if seen.bindings.Some? { FoundIsBound(worker, fingerprint, seen.bindings.value); }
  }

  lemma {:induction false} FoundIsBound(worker: WorkerId, fingerprint: nat, bindings: seq<Binding>)
    ensures var found := BindingForWorker(worker, fingerprint, bindings);
            Bound(bindings, worker, fingerprint) <==> found.Found? && found.binding.identified
  {
    hide BindingForWorker;
    var found := BindingForWorker(worker, fingerprint, bindings);
    if found.Found? && found.binding.identified { FoundIsTheOnlyOne(worker, fingerprint, bindings, found.binding); }
    if Bound(bindings, worker, fingerprint) {
      var i: nat :| OnlyBinding(bindings, worker, fingerprint, i) && bindings[i].sendable && bindings[i].identified;
      FoundIsTheOnlyOne(worker, fingerprint, bindings, bindings[i]);
    }
  }

  /** In the step system: an operation that failed leaves the store as it is and the request open, and
      proven unsuitability goes on to be written as exactly that rejection. */
  lemma {:induction false} ClassesDecideTheStep(c: Core, req: Request, takeover: Option<WorkerId>, worker: WorkerId, fingerprint: nat,
                                                seen: Evidence, route: Route, ch: Choice)
    requires req.action.SendInstruction? && Meant(req, worker) == worker && (takeover.Some? ==> takeover.value == worker)
    requires ch.prep == Submission.Resolved(worker, Classified(worker, fingerprint, seen, route))
    ensures var (d, next) := StepPreparing(c, req, takeover, ch);
            && d == c
            && (OperationFailed(worker, fingerprint, seen) <==> next.Done?)
            && (next.Done? ==> next.env == if takeover.Some? then InProgressEnvelope(req) else Failure(req, StBackendUnavailable))
            && (Classified(worker, fingerprint, seen, route).Permanent? ==>
                  next == Reserving(CanonicalFor(req, worker), Refuse(Classified(worker, fingerprint, seen, route).status)))
  {
    hide Classified;
    hide OperationFailed;
    TransientMeansNothingIsKnown(worker, fingerprint, seen, route);
  }
}
