/** When one revision of a question can receive two inputs: exactly when its question was closed in between,
    be it by an accepted answer, and then seen again. */
module Reopening {
  import opened Options
  import opened Envelopes
  import opened CommandStore
  import opened Submission
  import opened SubmissionInvariant
  import opened SubmissionSafety
  import opened PendingAnswers
  import opened AnswerTheorems
  import opened Retries
  import opened Acceptance

  /** The worker's question is open, with this revision. */
  predicate Shows(db: Db, w: WorkerId, revision: nat) {
    w in db.pending && db.pending[w].seen.ObservedOpen? && db.pending[w].revision == revision
  }

  predicate Sees(act: Act, w: WorkerId, revision: nat) {
    act.Sight? && act.worker == w && act.saw.SawPrompt? && act.saw.revision == revision
  }

  // ----- Only a sighting shows -----

  predicate SameAsked(db: Db, db': Db) {
    db'.pending == db.pending && db'.episodes == db.episodes
  }

  /** Of a submitter's steps only an accepted answer touches what is known of a question. */
  lemma {:induction false} AdvanceShows(c: Core, req: Request, pc: Pc, ch: Choice, w: WorkerId, revision: nat)
    requires Shows(Advance(c, req, pc, ch).0.db, w, revision)
    ensures Shows(c.db, w, revision)
    ensures EpisodeOf(Advance(c, req, pc, ch).0.db.episodes, w) == EpisodeOf(c.db.episodes, w)
  {
    if pc.Finishing? {
      var tx := FinishTx(c.db, c.now, req.rid, pc.lease.canon, pc.lease.token, pc.from, pc.terminal, pc.env, pc.effect);
      FinishShows(c.db, c.now, req.rid, pc.lease, pc.from, pc.terminal, pc.env, pc.effect, w, revision);
      hide FinishTx;
      hide EnvelopeFromReceipt;
      assert Advance(c, req, pc, ch).0.db == c.db || Advance(c, req, pc, ch).0.db == tx.0;
    } else {
      hide Advance;
      AdvanceKeepsAsked(c, req, pc, ch);
    }
  }

  lemma {:induction false} AdvanceKeepsAsked(c: Core, req: Request, pc: Pc, ch: Choice)
    requires !pc.Finishing?
    ensures SameAsked(c.db, Advance(c, req, pc, ch).0.db)
  {
    hide Advance;
    match pc
    case Reserving(canon, plan) => ReservingKeepsAsked(c, req, canon, plan, ch);
    case Marking(lease, held) => MarkingKeepsAsked(c, req, lease, held, ch);
    case Replaying(_, _, _) => TransactingKeepsAsked(c, req, pc, ch);
    case Concluding(_, _, _, _) => TransactingKeepsAsked(c, req, pc, ch);
    case Recovering(_, _, _) => TransactingKeepsAsked(c, req, pc, ch);
    case Queueing(_) => TransactingKeepsAsked(c, req, pc, ch);
    case _ =>
      OtherEpisodes(c, req, pc, ch);
      OthersKeepPending(c, req, pc, ch);
  }

  lemma {:induction false} ReservingKeepsAsked(c: Core, req: Request, canon: Canonical, plan: Plan, ch: Choice)
    ensures SameAsked(c.db, Advance(c, req, Reserving(canon, plan), ch).0.db)
  {
    ReceiptTxKeepsPending(c, req, canon, 0, Opaque, Uncertain, InProgressEnvelope(req));
    ReservingAway(c, req, canon, plan, ch);
    hide ReserveTx;
    hide EnvelopeFromReceipt;
  }

  lemma {:induction false} MarkingKeepsAsked(c: Core, req: Request, lease: Lease, held: Option<Hold>, ch: Choice)
    ensures SameAsked(c.db, Advance(c, req, Marking(lease, held), ch).0.db)
  {
    MarkedSame(c, req, lease);
    assert Marked(c, req, lease).db.pending == c.db.pending;
    hide Marked;
    hide MarkTx;
    hide EnvelopeFromReceipt;
  }

  lemma {:induction false} TransactingKeepsAsked(c: Core, req: Request, pc: Pc, ch: Choice)
    requires pc.Replaying? || pc.Concluding? || pc.Recovering? || pc.Queueing?
    ensures SameAsked(c.db, Advance(c, req, pc, ch).0.db)
  {
    TransactingAway(c, req, pc, ch);
    hide ReplayTx;
    hide ConcludeTx;
    hide RecoverTx;
    hide QueueTx;
    hide EnvelopeFromReceipt;
    match pc
    case Replaying(canon, seen, env) =>
      var (terminal, evidence) := ReplayEvidence(req, seen, env);
      ReceiptTxKeepsPending(c, req, canon, 0, Opaque, terminal, evidence);
    case Concluding(canon, seen, env, verdict) => ReceiptTxKeepsPending(c, req, canon, 0, seen.result, Uncertain, verdict);
    case Recovering(canon, seen, env) => ReceiptTxKeepsPending(c, req, canon, 0, seen.result, Uncertain, RecoveredEnvelope(req));
    case Queueing(lease) => ReceiptTxKeepsPending(c, req, lease.canon, lease.token, Opaque, Uncertain, QueuedEnvelope(req));
  }

  lemma {:induction false} OthersKeepPending(c: Core, req: Request, pc: Pc, ch: Choice)
    requires !(pc.Finishing? || pc.Reserving? || pc.Marking? || pc.Replaying? || pc.Concluding? || pc.Recovering? || pc.Queueing?)
    ensures Advance(c, req, pc, ch).0.db.pending == c.db.pending
  {
  }

  lemma {:induction false} ReceiptTxKeepsPending(c: Core, req: Request, canon: Canonical, token: nat, guard: Stored, st: ReceiptState, env: Envelope)
    ensures ReserveTx(c.db, c.now, req, canon).0.pending == c.db.pending
    ensures QueueTx(c.db, c.now, req.rid, canon, token, env).0.pending == c.db.pending
    ensures ConcludeTx(c.db, c.now, req.rid, canon, guard, env).0.pending == c.db.pending
    ensures RecoverTx(c.db, c.now, req.rid, canon, guard, env).0.pending == c.db.pending
    ensures forall proof :: ReplayTx(c.db, c.now, req.rid, canon, st, env, proof).0.pending == c.db.pending
  {
  }

  lemma {:induction false} FinishShows(db: Db, now: nat, rid: RequestId, lease: Lease, from: ReceiptState, terminal: ReceiptState, env: Envelope,
                                       effect: Option<(nat, WorkerId)>, w: WorkerId, revision: nat)
    ensures var db' := FinishTx(db, now, rid, lease.canon, lease.token, from, terminal, env, effect).0;
            Shows(db', w, revision) ==> Shows(db, w, revision) && EpisodeOf(db'.episodes, w) == EpisodeOf(db.episodes, w)
  {
  }

  /** If the question shows after a step, it was shown in the same opening before, or was just seen. */
  lemma {:induction false} ShownBefore(s: System, act: Act, w: WorkerId, revision: nat)
    requires Shows(Step(s, act).core.db, w, revision)
    ensures Sees(act, w, revision)
            || (Shows(s.core.db, w, revision) && EpisodeOf(Step(s, act).core.db.episodes, w) == EpisodeOf(s.core.db.episodes, w))
  {
    match act
    case Go(pid, ch) =>
      hide Advance;
      if pid in s.procs { AdvanceShows(s.core, s.procs[pid].req, s.procs[pid].pc, ch, w, revision); }
    case Sight(v, saw) => SightShows(s.core.db, v, saw, w, revision);
    case Maintain(rid) => MaintenanceKeepsPending(s.core, rid);
    case Sweep(_, _) =>
    case Tick(_) =>
    case Enter(_, _) =>
  }

  lemma {:induction false} MaintenanceKeepsPending(c: Core, rid: RequestId)
    ensures MaintainTx(c.db, c.now, c.policy, rid).pending == c.db.pending
    ensures MaintainTx(c.db, c.now, c.policy, rid).episodes == c.db.episodes
  {
  }

  lemma {:induction false} SightShows(db: Db, v: WorkerId, saw: Sighting, w: WorkerId, revision: nat)
    requires Shows(ObserveTx(db, v, saw), w, revision)
    ensures (v == w && saw.SawPrompt? && saw.revision == revision)
            || (Shows(db, w, revision) && EpisodeOf(ObserveTx(db, v, saw).episodes, w) == EpisodeOf(db.episodes, w))
  {
  }

  /** After an opening in which the question did not show the revision, it is seen before it shows. */
  lemma {:induction false} SeenSince(s: System, acts: seq<Act>, w: WorkerId, revision: nat) returns (b: nat)
    requires Shows(Run(s, acts).core.db, w, revision)
    requires EpisodeOf(Run(s, acts).core.db.episodes, w) != EpisodeOf(s.core.db.episodes, w)
    ensures b < |acts| && Sees(acts[b], w, revision)
            && EpisodeOf(Run(s, acts[..b + 1]).core.db.episodes, w) != EpisodeOf(s.core.db.episodes, w)
    decreases |acts|
  {
    hide Step;
    hide Shows;
    var init := acts[..|acts| - 1];
    ShownBefore(Run(s, init), acts[|acts| - 1], w, revision);
    if Sees(acts[|acts| - 1], w, revision) { b := |acts| - 1; assert acts[..b + 1] == acts; }
    else {
      b := SeenSince(s, init, w, revision);
      assert init[..b + 1] == acts[..b + 1];
    }
  }

  /** An opening that has ended was closed by some act. */
  lemma {:induction false} ClosedSince(s: System, acts: seq<Act>, w: WorkerId) returns (a: nat)
    requires EpisodeOf(Run(s, acts).core.db.episodes, w) != EpisodeOf(s.core.db.episodes, w)
    ensures a < |acts| && Closes(Run(s, acts[..a]), acts[a], w)
    decreases |acts|
  {
    hide Step;
    hide Closes;
    var init := acts[..|acts| - 1];
    if EpisodeOf(Run(s, init).core.db.episodes, w) != EpisodeOf(s.core.db.episodes, w) {
      a := ClosedSince(s, init, w);
      assert init[..a] == acts[..a];
    } else {
      a := |acts| - 1;
      EpisodesEndOnlyByClosing(Run(s, init), acts[a], w);
    }
  }

  // ----- Only a started answer crosses -----

  /** The act begins the input `x`: the question it is for shows, in its current opening. */
  ghost predicate Begins(s: System, act: Act, x: Crossing) {
    && act.Go? && act.pid in s.procs && s.procs[act.pid].pc.Started? && s.procs[act.pid].pc.held.Some?
    && Step(s, act).core.hist.crossings == s.core.hist.crossings + [x]
    && Shows(s.core.db, x.worker, x.revision) && x.episode == EpisodeOf(s.core.db.episodes, x.worker)
    && EpisodeOf(Step(s, act).core.db.episodes, x.worker) == x.episode
  }

  lemma {:induction false} AdvanceCrosses(c: Core, req: Request, pc: Pc, ch: Choice)
    requires AnswerOwnerOk(c, req, pc)
    ensures var d := Advance(c, req, pc, ch).0;
            d.hist.crossings == c.hist.crossings
            || (pc.Started? && pc.held.Some?
                && var (lease, hold) := (pc.lease, pc.held.value);
                   && StartClaimTx(c.db, c.now, lease.canon.worker, hold.claim, ch.fingerprint).1.Some?
                   && d == CrossedInto(c, req, lease, hold, ch.fingerprint) && hold.route.worker == lease.canon.worker
                   && Shows(c.db, lease.canon.worker, hold.revision))
  {
    if pc.Started? && pc.held.Some? {
      if Advance(c, req, pc, ch).0.hist.crossings != c.hist.crossings { ClaimAtCrossing(c, req, pc.lease, pc.held.value, ch); }
    } else { OthersCrossNothing(c, req, pc, ch); }
  }

  lemma {:induction false} OthersCrossNothing(c: Core, req: Request, pc: Pc, ch: Choice)
    requires !(pc.Started? && pc.held.Some?)
    ensures Advance(c, req, pc, ch).0.hist.crossings == c.hist.crossings
  {
  }

  lemma {:induction false} StepCrosses(s: System, act: Act)
    requires AnswersOk(s)
    ensures var xs := Step(s, act).core.hist.crossings;
            xs == s.core.hist.crossings || (xs != [] && Begins(s, act, xs[|xs| - 1]))
  {
    if act.Go? && act.pid in s.procs {
      var p := s.procs[act.pid];
      assert AnswerOwnerOk(s.core, p.req, p.pc);
      hide AnswersOk;
      hide AnswerOwnerOk;
      AdvanceCrosses(s.core, p.req, p.pc, act.choice);
      hide Advance;
    }
  }

  /** Every input of a run began at some step of it. */
  lemma {:induction false} BegunAt(policy: Policy, acts: seq<Act>, i: nat) returns (m: nat)
    requires ValidPolicy(policy) && i < |Run(Initial(policy), acts).core.hist.crossings|
    ensures m < |acts| && |Run(Initial(policy), acts[..m]).core.hist.crossings| == i
    ensures Begins(Run(Initial(policy), acts[..m]), acts[m], Run(Initial(policy), acts).core.hist.crossings[i])
    decreases |acts|
  {
    hide Step;
    hide Begins;
    hide AnswersOk;
    hide SystemOk;
    var init := acts[..|acts| - 1];
    AnswersRunOk(policy, init);
    StepCrosses(Run(Initial(policy), init), acts[|acts| - 1]);
    if i < |Run(Initial(policy), init).core.hist.crossings| {
      m := BegunAt(policy, init, i);
      assert init[..m] == acts[..m];
      CrossingsKept(policy, acts);
    } else {
      m := |acts| - 1;
      BeginsOne(Run(Initial(policy), init), acts[m]);
    }
  }

  lemma {:induction false} BeginsOne(s: System, act: Act)
    requires AnswersOk(s)
    ensures s.core.hist.crossings <= Step(s, act).core.hist.crossings
    ensures |Step(s, act).core.hist.crossings| <= |s.core.hist.crossings| + 1
  {
    hide Step;
    StepCrosses(s, act);
  }

  lemma {:induction false} CrossingsKept(policy: Policy, acts: seq<Act>)
    requires ValidPolicy(policy) && acts != []
    ensures Run(Initial(policy), acts[..|acts| - 1]).core.hist.crossings <= Run(Initial(policy), acts).core.hist.crossings
  {
    hide Step;
    AnswersRunOk(policy, acts[..|acts| - 1]);
    BeginsOne(Run(Initial(policy), acts[..|acts| - 1]), acts[|acts| - 1]);
  }

  lemma {:induction false} CrossingsGrow(policy: Policy, acts: seq<Act>, m: nat)
    requires ValidPolicy(policy) && m <= |acts|
    ensures |Run(Initial(policy), acts[..m]).core.hist.crossings| <= |Run(Initial(policy), acts).core.hist.crossings|
    decreases |acts|
  {
    if m == |acts| { assert acts[..m] == acts; }
    else {
      CrossingsGrow(policy, acts[..|acts| - 1], m);
      assert acts[..|acts| - 1][..m] == acts[..m];
      CrossingsKept(policy, acts);
    }
  }

  // ----- Two inputs for one revision -----

  /** Between any two inputs for one revision of a worker's question the question was closed, and after that
      this revision was seen again. */
  lemma {:induction false} ReopenedBetweenInputs(policy: Policy, acts: seq<Act>, i: nat, j: nat) returns (m: nat, a: nat, b: nat, n: nat)
    requires ValidPolicy(policy)
    requires var xs := Run(Initial(policy), acts).core.hist.crossings;
             i < j < |xs| && xs[i].worker == xs[j].worker && xs[i].revision == xs[j].revision
    ensures m < a <= b < n < |acts|
    ensures var (s, xs) := (Initial(policy), Run(Initial(policy), acts).core.hist.crossings);
            && Begins(Run(s, acts[..m]), acts[m], xs[i]) && Begins(Run(s, acts[..n]), acts[n], xs[j])
            && Closes(Run(s, acts[..a]), acts[a], xs[i].worker) && Sees(acts[b], xs[i].worker, xs[i].revision)
  {
    hide Step;
    hide Closes;
    hide Shows;
    var s, xs := Initial(policy), Run(Initial(policy), acts).core.hist.crossings;
    var w := xs[i].worker;
    m := BegunAt(policy, acts, i);
    n := BegunAt(policy, acts, j);
    AtMostOneInputPerQuestion(policy, acts);
    Later(policy, acts, i, j, m, n);
    var after := Run(s, acts[..m + 1]);
    assert acts[..m + 1][..m] == acts[..m];
    var between := acts[m + 1..n];
    assert acts[..m + 1] + between == acts[..n];
    RunJoined(s, acts[..m + 1], between);
    var b' := SeenSince(after, between, w, xs[i].revision);
    b := m + 1 + b';
    var a' := ClosedSince(after, between[..b' + 1], w);
    a := m + 1 + a';
    assert acts[..m + 1] + between[..a'] == acts[..a] && between[..b' + 1][..a'] == between[..a'];
    RunJoined(s, acts[..m + 1], between[..a']);
  }

  lemma {:induction false} Later(policy: Policy, acts: seq<Act>, i: nat, j: nat, m: nat, n: nat)
    requires ValidPolicy(policy) && i < j && m < |acts| && n < |acts|
    requires |Run(Initial(policy), acts[..m]).core.hist.crossings| == i && |Run(Initial(policy), acts[..n]).core.hist.crossings| == j
    ensures m < n
  {
    if n <= m {
      assert acts[..m][..n] == acts[..n];
      CrossingsGrow(policy, acts[..m], n);
    }
  }

  // ----- A question that was not answered in this opening can be -----

  /** A claim is for the question that shows or was last read, and once it is started, its input is on
      record for the current opening. */
  ghost predicate QuestionsOk(c: Core) {
    forall w :: w in c.db.claims ==>
      && w in c.db.pending && (c.db.pending[w].seen.ObservedOpen? || c.db.pending[w].seen.ObservedFailed?)
      && c.db.pending[w].revision == c.db.claims[w].revision
      && (c.db.claims[w].state.ClaimStarted? ==> CrossedNow(c, w))
  }

  /** An input has begun in the current opening of w's question. */
  ghost predicate CrossedNow(c: Core, w: WorkerId) {
    exists i :: 0 <= i < |c.hist.crossings| && c.hist.crossings[i].worker == w
                && c.hist.crossings[i].episode == EpisodeOf(c.db.episodes, w)
  }

  lemma {:induction false} StillCrossed(c: Core, d: Core, w: WorkerId)
    requires CrossedNow(c, w) && c.hist.crossings <= d.hist.crossings && EpisodeOf(d.db.episodes, w) == EpisodeOf(c.db.episodes, w)
    ensures CrossedNow(d, w)
  {
    var i :| 0 <= i < |c.hist.crossings| && c.hist.crossings[i].worker == w && c.hist.crossings[i].episode == EpisodeOf(c.db.episodes, w);
    assert d.hist.crossings[i] == c.hist.crossings[i];
  }

  /** Questions and openings are the same, and so is every claim, unless it is new and held. */
  lemma {:induction false} SameQuestionsOk(c: Core, d: Core)
    requires QuestionsOk(c) && SameAsked(c.db, d.db) && c.hist.crossings <= d.hist.crossings
    requires forall w :: w in d.db.claims ==>
               (w in c.db.claims && d.db.claims[w] == c.db.claims[w])
               || (d.db.claims[w].state.ClaimHeld? && w in d.db.pending && d.db.pending[w].seen.ObservedOpen?
                   && d.db.pending[w].revision == d.db.claims[w].revision)
    ensures QuestionsOk(d)
  {
    forall w | w in d.db.claims && d.db.claims[w].state.ClaimStarted? ensures CrossedNow(d, w) { StillCrossed(c, d, w); }
  }

  lemma {:induction false} AwayKeepsQuestions(c: Core, req: Request, pc: Pc, ch: Choice)
    requires QuestionsOk(c) && !pc.Finishing? && Advance(c, req, pc, ch).0.db.claims == c.db.claims
    requires Advance(c, req, pc, ch).0.hist.crossings == c.hist.crossings
    ensures QuestionsOk(Advance(c, req, pc, ch).0)
  {
    hide Advance;
    hide SameAsked;
    hide QuestionsOk;
    AdvanceKeepsAsked(c, req, pc, ch);
    SameQuestionsOk(c, Advance(c, req, pc, ch).0);
  }

  lemma {:induction false} AdvanceKeepsQuestions(c: Core, req: Request, pc: Pc, ch: Choice)
    requires QuestionsOk(c) && ClaimsOk(c)
    ensures QuestionsOk(Advance(c, req, pc, ch).0)
  {
    hide QuestionsOk;
    hide ClaimsOk;
    match pc
    case Claiming(lease, route) =>
      var d := c.(db := ClaimTx(c.db, c.now, lease.canon.worker, lease.canon.body, ch.fingerprint).0);
      SameQuestionsOk(c, d);
      hide ClaimTx;
    case Releasing(lease, hold, _, _) =>
      var d := c.(db := ReleaseClaimTx(c.db, hold.route.worker, hold.claim).0);
      SameQuestionsOk(c, d);
      hide ReleaseClaimTx;
    case Dropping(lease, hold) =>
      var d := c.(db := ReleaseClaimTx(c.db, hold.route.worker, hold.claim).0);
      SameQuestionsOk(c, d);
      hide ReleaseClaimTx;
    case Started(lease, Some(hold)) => CrossingKeepsQuestions(c, req, lease, hold, ch);
    case Finishing(lease, from, terminal, env, effect) => FinishKeepsQuestions(c, req, pc, ch);
    case _ => OthersKeepQuestions(c, req, pc, ch);
  }

  lemma {:induction false} OthersKeepQuestions(c: Core, req: Request, pc: Pc, ch: Choice)
    requires QuestionsOk(c)
    requires !(pc.Claiming? || pc.Releasing? || pc.Dropping? || pc.Finishing? || (pc.Started? && pc.held.Some?))
    ensures QuestionsOk(Advance(c, req, pc, ch).0)
  {
    hide QuestionsOk;
    hide Advance;
    if pc.Reserving? { ReservingKeepsClaims(c, req, pc.canon, pc.plan, ch); }
    else if pc.Replaying? || pc.Concluding? || pc.Recovering? || pc.Queueing? { TransactingAway(c, req, pc, ch); }
    else if pc.Marking? { MarkingKeepsClaims(c, req, pc.lease, pc.held, ch); }
    else { LocalKeepsClaims(c, req, pc, ch); }
    AwayKeepsQuestions(c, req, pc, ch);
  }

  lemma {:induction false} ReservingKeepsClaims(c: Core, req: Request, canon: Canonical, plan: Plan, ch: Choice)
    ensures SameClaims(c, Advance(c, req, Reserving(canon, plan), ch).0)
  {
    hide ReserveTx;
    hide EnvelopeFromReceipt;
    ReservingAway(c, req, canon, plan, ch);
  }

  lemma {:induction false} MarkingKeepsClaims(c: Core, req: Request, lease: Lease, held: Option<Hold>, ch: Choice)
    ensures SameClaims(c, Advance(c, req, Marking(lease, held), ch).0)
  {
    hide Marked;
    hide MarkTx;
    hide EnvelopeFromReceipt;
    MarkedSame(c, req, lease);
  }

  lemma {:induction false} LocalKeepsClaims(c: Core, req: Request, pc: Pc, ch: Choice)
    requires !(pc.Claiming? || pc.Releasing? || pc.Dropping? || pc.Finishing? || (pc.Started? && pc.held.Some?))
    requires !(pc.Reserving? || pc.Replaying? || pc.Concluding? || pc.Recovering? || pc.Queueing? || pc.Marking?)
    ensures SameClaims(c, Advance(c, req, pc, ch).0)
  {
  }

  lemma {:induction false} CrossingKeepsQuestions(c: Core, req: Request, lease: Lease, hold: Hold, ch: Choice)
    requires QuestionsOk(c)
    ensures QuestionsOk(StepCrossing(c, req, lease, hold, ch).0)
  {
    var w := hold.route.worker;
    var d := StepCrossing(c, req, lease, hold, ch).0;
    if d.hist.crossings != c.hist.crossings {
      var x := d.hist.crossings[|c.hist.crossings|];
      assert x.worker == w && x.episode == EpisodeOf(d.db.episodes, w);
      assert CrossedNow(d, w);
      forall v | v in d.db.claims && d.db.claims[v].state.ClaimStarted? ensures CrossedNow(d, v) {
        if v != w { StillCrossed(c, d, v); }
      }
    } else { SameQuestionsOk(c, d); }
  }

  /** One worker's claim is gone; elsewhere nothing has changed. */
  lemma {:induction false} OneQuestionLess(c: Core, d: Core, w: WorkerId)
    requires QuestionsOk(c) && w !in d.db.claims && d.hist.crossings == c.hist.crossings
    requires forall v :: v in d.db.claims ==> v in c.db.claims && d.db.claims[v] == c.db.claims[v]
    requires forall v :: v != w && v in c.db.pending ==> v in d.db.pending && d.db.pending[v] == c.db.pending[v]
    requires forall v :: v != w ==> EpisodeOf(d.db.episodes, v) == EpisodeOf(c.db.episodes, v)
    ensures QuestionsOk(d)
  {
    forall v | v in d.db.claims && d.db.claims[v].state.ClaimStarted? ensures CrossedNow(d, v) { StillCrossed(c, d, v); }
  }

  lemma {:induction false} FinishKeepsQuestions(c: Core, req: Request, pc: Pc, ch: Choice)
    requires QuestionsOk(c) && pc.Finishing?
    ensures QuestionsOk(Advance(c, req, pc, ch).0)
  {
    var tx := FinishTx(c.db, c.now, req.rid, pc.lease.canon, pc.lease.token, pc.from, pc.terminal, pc.env, pc.effect);
    var d := Committed(c, req.rid, tx.0);
    if SameAsked(c.db, tx.0) && tx.0.claims == c.db.claims { SameQuestionsOk(c, d); }
    else { OneQuestionLess(c, d, pc.effect.value.1); }
    hide FinishTx;
    hide QuestionsOk;
    hide EnvelopeFromReceipt;
    assert Advance(c, req, pc, ch).0 == c || Advance(c, req, pc, ch).0 == d;
  }

  lemma {:induction false} SightIsOfOne(db: Db, w: WorkerId, saw: Sighting)
    ensures var d := ObserveTx(db, w, saw);
            && (forall v :: v in d.claims ==> v in db.claims && d.claims[v] == db.claims[v])
            && (forall v :: v != w && v in db.pending ==> v in d.pending && d.pending[v] == db.pending[v])
            && (forall v :: v != w ==> EpisodeOf(d.episodes, v) == EpisodeOf(db.episodes, v))
  {
  }

  /** A claim that a sighting leaves is for the same question in the same opening. */
  lemma {:induction false} SightKeepsClaimed(db: Db, w: WorkerId, saw: Sighting)
    requires w in ObserveTx(db, w, saw).claims && w in db.claims && w in db.pending
    requires (db.pending[w].seen.ObservedOpen? || db.pending[w].seen.ObservedFailed?) && db.pending[w].revision == db.claims[w].revision
    ensures var d := ObserveTx(db, w, saw);
            && w in d.pending && (d.pending[w].seen.ObservedOpen? || d.pending[w].seen.ObservedFailed?)
            && d.pending[w].revision == db.claims[w].revision && EpisodeOf(d.episodes, w) == EpisodeOf(db.episodes, w)
  {
  }

  lemma {:induction false} SightKeepsQuestions(c: Core, w: WorkerId, saw: Sighting)
    requires QuestionsOk(c)
    ensures QuestionsOk(c.(db := ObserveTx(c.db, w, saw)))
  {
    var d := c.(db := ObserveTx(c.db, w, saw));
    SightIsOfOne(c.db, w, saw);
    if w in d.db.claims {
      SightKeepsClaimed(c.db, w, saw);
      hide ObserveTx;
      forall v | v in d.db.claims && d.db.claims[v].state.ClaimStarted? ensures CrossedNow(d, v) { StillCrossed(c, d, v); }
    } else {
      hide ObserveTx;
      OneQuestionLess(c, d, w);
    }
  }

  lemma {:induction false} StepKeepsQuestions(s: System, act: Act)
    requires QuestionsOk(s.core) && ClaimsOk(s.core)
    ensures QuestionsOk(Step(s, act).core)
  {
    hide QuestionsOk;
    hide ClaimsOk;
    var d := Step(s, act).core;
    match act
    case Go(pid, ch) =>
      hide Advance;
      if pid in s.procs { AdvanceKeepsQuestions(s.core, s.procs[pid].req, s.procs[pid].pc, ch); }
    case Sight(w, saw) => SightKeepsQuestions(s.core, w, saw);
    case Maintain(rid) =>
      MaintenanceKeepsPending(s.core, rid);
      assert d.db.claims == s.core.db.claims && d.hist.crossings == s.core.hist.crossings;
      SameQuestionsOk(s.core, d);
    case Sweep(_, _) =>
      assert SameAsked(s.core.db, d.db) && d.db.claims == s.core.db.claims;
      SameQuestionsOk(s.core, d);
    case Tick(_) => SameQuestionsOk(s.core, d);
    case Enter(_, _) =>
  }

  lemma {:induction false} QuestionsRunOk(policy: Policy, acts: seq<Act>)
    requires ValidPolicy(policy)
    ensures QuestionsOk(Run(Initial(policy), acts).core)
    decreases |acts|
  {
    if acts != [] {
      hide Step;
      hide QuestionsOk;
      hide AnswersOk;
      hide SystemOk;
      var prior := Run(Initial(policy), acts[..|acts| - 1]);
      QuestionsRunOk(policy, acts[..|acts| - 1]);
      AnswersRunOk(policy, acts[..|acts| - 1]);
      assert ClaimsOk(prior.core) by { AnswersAreOk(prior); }
      StepKeepsQuestions(prior, acts[|acts| - 1]);
    }
  }

  /** An answer to an open question can be typed, at the latest when the lease of a claim that stands has run
      out, if and only if no input has begun in the current opening. */
  lemma {:induction false} AnswerableUnlessCrossed(policy: Policy, acts: seq<Act>, req: Request, w: WorkerId)
    requires ValidPolicy(policy) && Asked(Run(Initial(policy), acts).core, req, w)
    ensures var s := Run(Initial(policy), acts);
            Answerable(Step(s, Tick(CLAIM_LEASE)).core, req, w) <==> !CrossedNow(s.core, w)
  {
    var s := Run(Initial(policy), acts);
    QuestionsRunOk(policy, acts);
    AnswersRunOk(policy, acts);
    assert ClaimsOk(s.core) by { AnswersAreOk(s); }
    hide AnswersOk;
    hide SystemOk;
    StillAsked(s.core, req, w);
    if CrossedNow(s.core, w) {
      var i :| 0 <= i < |s.core.hist.crossings| && s.core.hist.crossings[i].worker == w
               && s.core.hist.crossings[i].episode == EpisodeOf(s.core.db.episodes, w);
      assert PendingAnswers.CrossingOk(s.core, s.core.hist.crossings[i]);
    }
  }

  lemma {:induction false} StillAsked(c: Core, req: Request, w: WorkerId)
    requires Asked(c, req, w)
    ensures Asked(c.(now := c.now + CLAIM_LEASE), req, w)
  {
  }

  // ----- A closed question that is seen again is answered again -----

  /** Whatever ends an opening takes the claim on its question away. */
  lemma {:induction false} ClosingFreesTheQuestion(s: System, act: Act, w: WorkerId)
    requires QuestionsOk(s.core) && EpisodeOf(Step(s, act).core.db.episodes, w) != EpisodeOf(s.core.db.episodes, w)
    ensures w !in Step(s, act).core.db.claims
  {
    match act
    case Go(pid, ch) =>
      if pid in s.procs {
        var p := s.procs[pid];
        hide Advance;
        AdvanceEpisodes(s.core, p.req, p.pc, ch, w);
        FinishFrees(s.core, p.req, p.pc, ch, w);
      }
    case Sight(v, saw) =>
      SightEpisodes(s.core.db, v, saw, w);
      SightFrees(s.core, w, saw);
      hide ObserveTx;
    case Maintain(rid) => MaintenanceKeepsPending(s.core, rid);
    case Sweep(_, _) =>
    case Tick(_) =>
    case Enter(_, _) =>
  }

  lemma {:induction false} SightFrees(c: Core, w: WorkerId, saw: Sighting)
    requires QuestionsOk(c)
    ensures var d := ObserveTx(c.db, w, saw); EpisodeOf(d.episodes, w) != EpisodeOf(c.db.episodes, w) ==> w !in d.claims
  {
    hide ObserveTx;
    SightIsOfOne(c.db, w, saw);
    if w in ObserveTx(c.db, w, saw).claims { SightKeepsClaimed(c.db, w, saw); }
  }

  lemma {:induction false} FinishFrees(c: Core, req: Request, pc: Pc, ch: Choice, w: WorkerId)
    requires pc.Finishing? && EpisodeOf(Advance(c, req, pc, ch).0.db.episodes, w) != EpisodeOf(c.db.episodes, w)
    ensures w !in Advance(c, req, pc, ch).0.db.claims
  {
    var tx := FinishTx(c.db, c.now, req.rid, pc.lease.canon, pc.lease.token, pc.from, pc.terminal, pc.env, pc.effect);
    assert EpisodeOf(tx.0.episodes, w) != EpisodeOf(c.db.episodes, w) ==> w !in tx.0.claims;
    hide FinishTx;
    hide EnvelopeFromReceipt;
    assert Advance(c, req, pc, ch).0.db == c.db || Advance(c, req, pc, ch).0.db == tx.0;
  }

  /** Conversely, in every run in which a question is closed and then seen, an answer to it, new or resumed,
      is typed if the environment lets it through, whatever was typed for this revision before. */
  lemma {:induction false} ReopenedQuestionIsAnswered(policy: Policy, acts: seq<Act>, act: Act, saw: Sighting, pid: nat, req: Request,
                                                      w: WorkerId, ch: Choice)
    requires ValidPolicy(policy) && saw.SawPrompt? && req.body in saw.options && ch.fingerprint.Some?
    requires var (s, t) := (Run(Initial(policy), acts), Run(Initial(policy), acts + [act]));
             && EpisodeOf(t.core.db.episodes, w) != EpisodeOf(s.core.db.episodes, w)
             && !req.action.SendInstruction? && Retryable(t.core, req, w) && Targets(req, w) && pid !in t.procs
    requires GoodWeather(w, ch) && ch.typed
    requires ch.prep.how.route == Route(w, ch.fingerprint.value, saw.binding, saw.pane, saw.options[req.body])
    ensures var t := Run(Initial(policy), acts + [act] + [Sight(w, saw)]);
            var u := Run(t, [Enter(pid, req)] + Goes(pid, ch, Checks(t.core, req) + 5));
            && w in t.core.db.pending && t.core.db.pending[w].revision == saw.revision && OneMoreInput(t.core, u.core, req, w)
  {
    var t := Run(Initial(policy), acts + [act]);
    var u := Run(Initial(policy), acts + [act] + [Sight(w, saw)]);
    RunSnoc(Initial(policy), acts, act);
    RunSnoc(Initial(policy), acts + [act], Sight(w, saw));
    QuestionsRunOk(policy, acts);
    hide Run;
    hide QuestionsOk;
    hide CoreOk;
    ClosingFreesTheQuestion(Run(Initial(policy), acts), act, w);
    RunOk(policy, acts + [act] + [Sight(w, saw)]);
    assert CoreOk(u.core) by { SystemIsOk(u); }
    hide SystemOk;
    SeenIsAnswerable(t, saw, req, w, ch);
    DriveIsRun(u, pid, req, ch, Checks(u.core, req) + 5);
    hide Step;
    var d, lease, hold := InputIsReached(u.core, req, w, ch);
    BegunIsOneMore(u.core, d, req, w, lease, ch);
  }

  lemma {:induction false} SeenIsAnswerable(s: System, saw: Sighting, req: Request, w: WorkerId, ch: Choice)
    requires saw.SawPrompt? && req.body in saw.options && ch.fingerprint.Some? && w !in s.core.db.claims
    requires !req.action.SendInstruction? && Retryable(s.core, req, w) && Targets(req, w) && GoodWeather(w, ch) && ch.typed
    requires ch.prep.how.route == Route(w, ch.fingerprint.value, saw.binding, saw.pane, saw.options[req.body])
    ensures var t := Step(s, Sight(w, saw));
            && Answerable(t.core, req, w) && AnswerWeather(t.core, req, w, ch) && t.procs == s.procs
            && t.core.db.pending[w].revision == saw.revision
  {
  }
}
