/** Each store transaction, under any fault, keeps the core invariant and stays within the rely. */
module SubmissionSteps {
  import opened Options
  import opened Envelopes
  import opened CommandStore
  import opened Submission
  import opened SubmissionInvariant

  // ----- Shapes of core change -----

  ghost predicate SameHistory(c: Core, d: Core) {
    d.hist.starts == c.hist.starts && d.hist.sends == c.hist.sends
  }

  ghost predicate LedgerAgrees(c: Core, d: Core, rid: RequestId) {
    forall r :: r != rid && r in c.db.ledger ==> r in d.db.ledger && d.db.ledger[r] == c.db.ledger[r]
  }

  /** Only pending questions, claims and crossings may differ. */
  ghost predicate SameReceipts(c: Core, d: Core) {
    && d.policy == c.policy && d.now == c.now && SameHistory(c, d) && d.hist.finals == c.hist.finals
    && d.db.receipts == c.db.receipts && d.db.ledger == c.db.ledger
    && d.db.tokens == c.db.tokens && d.db.births == c.db.births
  }

  lemma {:induction false} RowFrame(c: Core, d: Core, rid: RequestId)
    requires rid in c.db.receipts && rid in d.db.receipts && d.db.receipts[rid] == c.db.receipts[rid]
    requires RowOk(c, rid) && SameHistory(c, d) && c.now <= d.now
    requires c.db.births <= d.db.births && c.db.tokens <= d.db.tokens
    requires rid in c.db.ledger ==> rid in d.db.ledger && d.db.ledger[rid] == c.db.ledger[rid]
    requires c.db.receipts[rid].born in d.hist.finals <==> c.db.receipts[rid].born in c.hist.finals
    requires c.db.receipts[rid].born in c.hist.finals ==>
               d.hist.finals[c.db.receipts[rid].born] == c.hist.finals[c.db.receipts[rid].born]
    ensures RowOk(d, rid)
  {
    var row := c.db.receipts[rid];
    if row.state.SendStarted? {
      assert StartedBy(d, rid, row.owner.value, row.born);
      if Queued(rid, row) { assert SentWith(d, rid, row.owner.value, row.born, Prompted(WrittenToPty)); }
    }
    if row.state.Reserved? { assert NeverStarted(d, row.born); }
  }

  lemma {:induction false} FinalFrame(c: Core, d: Core, b: nat)
    requires b in c.hist.finals && FinalOk(c, b) && SameHistory(c, d) && c.db.births <= d.db.births
    requires b in d.hist.finals && d.hist.finals[b] == c.hist.finals[b]
    ensures FinalOk(d, b)
  {
    if WasDelivered(c, b) { assert WasDelivered(d, b); }
    if WasRefused(c, b) { assert WasRefused(d, b); }
    if NeverStarted(c, b) { assert NeverStarted(d, b); }
  }

  lemma {:induction false} SendFrame(c: Core, d: Core)
    requires CoreOk(c) && c.hist.starts <= d.hist.starts && d.hist.sends == c.hist.sends
    ensures forall k :: 0 <= k < |d.hist.sends| ==> SendOk(d, k)
  {
    forall k | 0 <= k < |d.hist.sends| ensures SendOk(d, k) {
      assert SendOk(c, k);
      var sd := c.hist.sends[k];
      var i :| 0 <= i < |c.hist.starts| && c.hist.starts[i].token == sd.token
               && c.hist.starts[i].rid == sd.rid && c.hist.starts[i].born == sd.born;
      assert d.hist.starts[i] == c.hist.starts[i];
    }
  }

  lemma {:induction false} SameReceiptsOk(c: Core, d: Core, t: Option<nat>)
    requires CoreOk(c) && SameReceipts(c, d)
    ensures CoreOk(d) && Grows(c, d, t)
  {
    forall rid | rid in d.db.receipts ensures RowOk(d, rid) { RowFrame(c, d, rid); }
    forall i | 0 <= i < |d.hist.starts| ensures StartOk(d, i) { assert StartOk(c, i); }
    SendFrame(c, d);
    forall b | b in d.hist.finals ensures FinalOk(d, b) { FinalFrame(c, d, b); }
  }

  /** Only the row for `rid` (and its ledger) is written; nothing is started or sent. */
  ghost predicate OneRow(c: Core, d: Core, rid: RequestId) {
    && d.policy == c.policy && d.now == c.now && SameHistory(c, d) && LedgerAgrees(c, d, rid)
    && c.db.tokens <= d.db.tokens && c.db.births <= d.db.births
    && rid in d.db.receipts && d.db.receipts == c.db.receipts[rid := d.db.receipts[rid]]
    && d.hist.finals == Noted(c.hist.finals, rid, d.db)
  }

  /** No other row shares the number or the owner of this one. */
  ghost predicate Unshared(c: Core, rid: RequestId, row: Receipt) {
    forall r :: r in c.db.receipts && r != rid ==>
      c.db.receipts[r].born != row.born && (row.owner.Some? ==> c.db.receipts[r].owner != row.owner)
  }

  ghost predicate StartsOk(c: Core) {
    forall i :: 0 <= i < |c.hist.starts| ==> StartOk(c, i)
  }

  lemma {:induction false} OneRowOk(c: Core, d: Core, rid: RequestId)
    requires CoreOk(c) && OneRow(c, d, rid) && Unshared(c, rid, d.db.receipts[rid])
    requires RowOk(d, rid) && StartsOk(d)
    requires IsTerminal(d.db.receipts[rid].state) ==>
               FinalOk(d, d.db.receipts[rid].born)
               && (d.db.receipts[rid].born in c.hist.finals ==> c.hist.finals[d.db.receipts[rid].born] == d.db.receipts[rid].state)
    ensures CoreOk(d)
  {
    forall r | r in d.db.receipts ensures RowOk(d, r) {
      if r != rid { assert RowOk(c, r); RowFrame(c, d, r); }
    }
    SendFrame(c, d);
    forall b | b in d.hist.finals ensures FinalOk(d, b) {
      if b in c.hist.finals { FinalFrame(c, d, b); }
    }
  }

  lemma {:induction false} OneRowGrows(c: Core, d: Core, rid: RequestId, t: Option<nat>)
    requires OneRow(c, d, rid)
    requires d.db.receipts[rid].owner.Some? && d.db.receipts[rid].owner != t ==>
               rid in c.db.receipts && c.db.receipts[rid].owner == d.db.receipts[rid].owner
               && c.db.receipts[rid].born == d.db.receipts[rid].born && c.db.receipts[rid].canon == d.db.receipts[rid].canon
    requires IsTerminal(d.db.receipts[rid].state) && d.db.receipts[rid].born in c.hist.finals ==>
               c.hist.finals[d.db.receipts[rid].born] == d.db.receipts[rid].state
    ensures Grows(c, d, t)
  {
  }

  lemma {:induction false} Rows(c: Core, rid: RequestId)
    requires CoreOk(c) && rid in c.db.receipts
    ensures RowOk(c, rid) && Unshared(c, rid, c.db.receipts[rid])
  {
  }

  /** The row keeps its number and does not go back to `reserved`. */
  lemma {:induction false} StartsKept(c: Core, d: Core, rid: RequestId)
    requires StartsOk(c) && OneRow(c, d, rid) && rid in c.db.receipts
    requires var was, now := c.db.receipts[rid], d.db.receipts[rid];
             && now.born == was.born
             && (was.state.Reserved? ==> NeverStarted(c, was.born))
             && (was.state.SendStarted? ==>
                  && !now.state.Reserved?
                  && (now.state.SendStarted? ==> now.owner == was.owner && now.startedAt == was.startedAt && now.expires == was.expires)
                  && (IsTerminal(now.state) ==> now.terminalAt == Some(c.now)))
             && (IsTerminal(was.state) ==> now == was)
    ensures StartsOk(d)
  {
    forall i | 0 <= i < |d.hist.starts| ensures StartOk(d, i) { assert StartOk(c, i); }
  }

  /** A new row takes the place of a missing one. */
  lemma {:induction false} StartsOutlived(c: Core, d: Core, rid: RequestId)
    requires StartsOk(c) && OneRow(c, d, rid) && rid !in c.db.receipts && d.db.receipts[rid].born == c.db.births
    ensures StartsOk(d) && NeverStarted(d, c.db.births)
  {
    forall i | 0 <= i < |d.hist.starts| ensures StartOk(d, i) && d.hist.starts[i].born != c.db.births { assert StartOk(c, i); }
  }

  lemma {:induction false} OutcomeFrame(c: Core, d: Core, born: nat)
    requires SameHistory(c, d)
    ensures WasDelivered(c, born) ==> WasDelivered(d, born)
    ensures WasRefused(c, born) ==> WasRefused(d, born)
    ensures NeverStarted(c, born) ==> NeverStarted(d, born)
  {
    if WasDelivered(c, born) { assert WasDelivered(d, born); }
    if WasRefused(c, born) { assert WasRefused(d, born); }
  }

  /** One row leaves the live states for good. */
  lemma {:induction false} TerminalizeOk(c: Core, d: Core, rid: RequestId, terminal: ReceiptState, st: Status, result: Stored, t: Option<nat>)
    requires CoreOk(c) && rid in c.db.receipts && !IsTerminal(c.db.receipts[rid].state) && IsTerminal(terminal)
    requires OneRow(c, d, rid) && d.db.tokens == c.db.tokens && d.db.births == c.db.births
    requires d.db.receipts[rid] == TerminalRow(c.db.receipts[rid], c.now, terminal, st, result)
    requires WellStored(rid, d.db.receipts[rid])
    requires terminal.Accepted? ==> WasDelivered(c, c.db.receipts[rid].born)
    requires terminal.Rejected? ==> NeverStarted(c, c.db.receipts[rid].born) || WasRefused(c, c.db.receipts[rid].born)
    ensures CoreOk(d) && Grows(c, d, t)
  {
    var row := c.db.receipts[rid];
    Rows(c, rid);
    assert d.hist.finals == c.hist.finals[row.born := terminal];
    StartsKept(c, d, rid);
    OutcomeFrame(c, d, row.born);
    assert FinalOk(d, row.born);
    OneRowOk(c, d, rid);
    OneRowGrows(c, d, rid, t);
  }

  // ----- Reservation -----

  lemma {:induction false} ReserveShape(c: Core, req: Request, canon: Canonical)
    requires CoreOk(c) && canon.action == req.action
    ensures var (db', reply) := ReserveTx(c.db, c.now, req, canon);
            var d := Committed(c, req.rid, db');
            && (reply.row.Some? && req.rid in d.db.receipts && reply.row.value == d.db.receipts[req.rid])
            && (!reply.tag.TReserved? ==> SameReceipts(c, d))
            && (reply.tag.TReserved? ==>
                  && OneRow(c, d, req.rid) && d.hist.finals == c.hist.finals
                  && reply.token == c.db.tokens && d.db.tokens == c.db.tokens + 1
                  && reply.row.value.state.Reserved? && reply.row.value.owner == Some(c.db.tokens)
                  && reply.row.value.canon == canon && reply.row.value.result == Doc(InProgressEnvelope(req))
                  && reply.row.value.status.StPending? && reply.row.value.expires.Some? && reply.row.value.updated == c.now
                  && reply.row.value.startedAt.None? && reply.row.value.terminalAt.None?
                  && (req.rid in c.db.receipts ==>
                        c.db.receipts[req.rid].state.Reserved? && reply.row.value.born == c.db.receipts[req.rid].born)
                  && (req.rid !in c.db.receipts ==> reply.row.value.born == c.db.births && d.db.births == c.db.births + 1))
  {
    if req.rid in c.db.receipts { assert RowOk(c, req.rid); }
  }

  lemma {:induction false} ReserveOk(c: Core, req: Request, canon: Canonical)
    requires CoreOk(c) && canon.action == req.action
    ensures var (db', reply) := ReserveTx(c.db, c.now, req, canon);
            var d := Committed(c, req.rid, db');
            && CoreOk(d) && Grows(c, d, Some(c.db.tokens))
            && reply.row.Some? && req.rid in d.db.receipts && reply.row.value == d.db.receipts[req.rid]
            && (reply.tag.TReserved? ==>
                  && reply.token == c.db.tokens
                  && LeaseOk(d, req, Lease(canon, reply.token, reply.row.value.born)) && NoStart(d, reply.token))
  {
    ReserveShape(c, req, canon);
    var (db', reply) := ReserveTx(c.db, c.now, req, canon);
    var d := Committed(c, req.rid, db');
    if reply.tag.TReserved? { GrantOk(c, d, req, canon); } else { SameReceiptsOk(c, d, Some(c.db.tokens)); }
  }

  lemma {:induction false} GrantOk(c: Core, d: Core, req: Request, canon: Canonical)
    requires CoreOk(c) && canon.action == req.action && OneRow(c, d, req.rid) && d.hist.finals == c.hist.finals
    requires var row := d.db.receipts[req.rid];
             && d.db.tokens == c.db.tokens + 1
             && row.state.Reserved? && row.owner == Some(c.db.tokens) && row.canon == canon
             && row.result == Doc(InProgressEnvelope(req)) && row.status.StPending? && row.expires.Some?
             && row.updated == c.now && row.startedAt.None? && row.terminalAt.None?
             && (req.rid in c.db.receipts ==> c.db.receipts[req.rid].state.Reserved? && row.born == c.db.receipts[req.rid].born)
             && (req.rid !in c.db.receipts ==> row.born == c.db.births && d.db.births == c.db.births + 1)
    ensures CoreOk(d) && Grows(c, d, Some(c.db.tokens))
    ensures LeaseOk(d, req, Lease(canon, c.db.tokens, d.db.receipts[req.rid].born)) && NoStart(d, c.db.tokens)
  {
    var rid := req.rid;
    FreshOwner(c, rid, d.db.receipts[rid]);
    if rid in c.db.receipts { Rows(c, rid); StartsKept(c, d, rid); }
    else { StartsOutlived(c, d, rid); NewNumber(c); }
    OutcomeFrame(c, d, d.db.receipts[rid].born);
    OneRowOk(c, d, rid);
    OneRowGrows(c, d, rid, Some(c.db.tokens));
    forall i | 0 <= i < |d.hist.starts| ensures d.hist.starts[i].token != c.db.tokens { assert StartOk(c, i); }
  }

  lemma {:induction false} NewNumber(c: Core)
    requires CoreOk(c)
    ensures c.db.births !in c.hist.finals
    ensures forall r :: r in c.db.receipts ==> c.db.receipts[r].born != c.db.births
  {
    forall b | b in c.hist.finals ensures b != c.db.births { assert FinalOk(c, b); }
    forall r | r in c.db.receipts ensures c.db.receipts[r].born != c.db.births { assert RowOk(c, r); }
  }

  lemma {:induction false} FreshOwner(c: Core, rid: RequestId, row: Receipt)
    requires CoreOk(c) && (row.owner == Some(c.db.tokens) || row.owner.None?)
    requires if rid in c.db.receipts then row.born == c.db.receipts[rid].born else row.born == c.db.births
    ensures Unshared(c, rid, row)
  {
    forall r | r in c.db.receipts && r != rid
      ensures c.db.receipts[r].born != row.born && (row.owner.Some? ==> c.db.receipts[r].owner != row.owner)
    { assert RowOk(c, r); }
  }

  lemma {:induction false} YieldOk(c: Core, rid: RequestId, canon: Canonical, token: nat, t: Option<nat>)
    requires CoreOk(c)
    ensures var d := c.(db := YieldTx(c.db, c.now, rid, canon, token)); CoreOk(d) && Grows(c, d, t)
  {
    var d := c.(db := YieldTx(c.db, c.now, rid, canon, token));
    if d.db == c.db { SameReceiptsOk(c, d, t); }
    else {
      Rows(c, rid);
      StartsKept(c, d, rid);
      OutcomeFrame(c, d, d.db.receipts[rid].born);
      OneRowOk(c, d, rid);
      OneRowGrows(c, d, rid, t);
    }
  }

  // ----- Send start -----

  lemma {:induction false} MarkOk(c: Core, req: Request, lease: Lease)
    requires CoreOk(c) && LeaseOk(c, req, lease) && NoStart(c, lease.token)
    ensures var (_, reply) := MarkTx(c.db, c.now, req.rid, lease.canon, lease.token, c.policy.window, c.policy.ttl);
            var d := Marked(c, req, lease);
            && CoreOk(d) && Grows(c, d, Some(lease.token)) && LeaseOk(d, req, lease)
            && (reply.tag.TStarted? ==> StartedBy(d, req.rid, lease.token, lease.born) && NoSend(d, lease.token))
            && (reply.row.Some? ==> req.rid in d.db.receipts && reply.row.value == d.db.receipts[req.rid])
  {
    var rid := req.rid;
    var (db', reply) := MarkTx(c.db, c.now, rid, lease.canon, lease.token, c.policy.window, c.policy.ttl);
    var d := Marked(c, req, lease);
    if rid in c.db.receipts { assert RowOk(c, rid); }
    if reply.tag.TStarted? { MarkShape(c, req, lease); StartOfOwnerOk(c, d, req, lease); }
    else {
      assert d.hist.finals == c.hist.finals;
      SameReceiptsOk(c, d, Some(lease.token));
    }
  }

  lemma {:induction false} MarkShape(c: Core, req: Request, lease: Lease)
    requires CoreOk(c) && LeaseOk(c, req, lease)
    requires MarkTx(c.db, c.now, req.rid, lease.canon, lease.token, c.policy.window, c.policy.ttl).1.tag.TStarted?
    ensures req.rid in c.db.receipts && c.db.receipts[req.rid].owner == Some(lease.token) && c.db.receipts[req.rid].state.Reserved?
    ensures StartWritten(c, Marked(c, req, lease), req.rid, lease)
  {
    Rows(c, req.rid);
  }

  ghost predicate StartWritten(c: Core, d: Core, rid: RequestId, lease: Lease)
    requires rid in c.db.receipts
  {
    && d.policy == c.policy && d.now == c.now && LedgerAgrees(c, d, rid)
    && d.db.tokens == c.db.tokens && d.db.births == c.db.births
    && d.hist.sends == c.hist.sends && d.hist.finals == c.hist.finals
    && d.hist.starts == c.hist.starts + [Start(rid, lease.token, lease.born, c.now, LeaseEnd(Some(c.db.receipts[rid]), c.now))]
    && d.db.receipts == c.db.receipts[rid := c.db.receipts[rid].(state := SendStarted, startedAt := Some(c.now), updated := c.now)]
  }

  lemma {:induction false} StartCoreOk(c: Core, d: Core, rid: RequestId, lease: Lease)
    requires CoreOk(c) && NoStart(c, lease.token)
    requires rid in c.db.receipts && c.db.receipts[rid].owner == Some(lease.token) && c.db.receipts[rid].born == lease.born
    requires c.db.receipts[rid].state.Reserved? && StartWritten(c, d, rid, lease)
    ensures CoreOk(d)
  {
    var st := Start(rid, lease.token, lease.born, c.now, LeaseEnd(Some(c.db.receipts[rid]), c.now));
    StartAppended(c, d, rid, st);
    forall r | r in d.db.receipts ensures RowOk(d, r) {
      Rows(c, r);
      if r != rid { Rows(c, rid); MarkRowFrame(c, d, r, st); }
      else { assert d.hist.starts[|c.hist.starts|] == st; }
    }
    SendFrame(c, d);
    forall b | b in d.hist.finals ensures FinalOk(d, b) { assert RowOk(c, rid); FinalStarted(c, d, b, st); }
  }

  lemma {:induction false} StartOfOwnerOk(c: Core, d: Core, req: Request, lease: Lease)
    requires CoreOk(c) && LeaseOk(c, req, lease) && NoStart(c, lease.token)
    requires req.rid in c.db.receipts && c.db.receipts[req.rid].owner == Some(lease.token)
    requires c.db.receipts[req.rid].state.Reserved? && StartWritten(c, d, req.rid, lease)
    ensures CoreOk(d) && Grows(c, d, Some(lease.token)) && LeaseOk(d, req, lease)
    ensures StartedBy(d, req.rid, lease.token, lease.born) && NoSend(d, lease.token)
  {
    StartCoreOk(c, d, req.rid, lease);
    assert d.hist.starts[|c.hist.starts|].token == lease.token && d.hist.starts[|c.hist.starts|].rid == req.rid;
    forall k | 0 <= k < |c.hist.sends| ensures c.hist.sends[k].token != lease.token { assert SendOk(c, k); }
  }

  lemma {:induction false} StartAppended(c: Core, d: Core, rid: RequestId, st: Start)
    requires CoreOk(c) && rid in c.db.receipts && c.db.receipts[rid].state.Reserved?
    requires st == Start(rid, st.token, c.db.receipts[rid].born, c.now, LeaseEnd(Some(c.db.receipts[rid]), c.now)) && NoStart(c, st.token)
    requires c.db.receipts[rid].owner == Some(st.token)
    requires d.hist.starts == c.hist.starts + [st] && d.now == c.now && d.policy == c.policy
    requires d.db.tokens == c.db.tokens && d.db.births == c.db.births
    requires d.db.receipts == c.db.receipts[rid := c.db.receipts[rid].(state := SendStarted, startedAt := Some(c.now), updated := c.now)]
    ensures StartsOk(d)
    ensures forall i, j :: 0 <= i < j < |d.hist.starts| ==> Apart(d.policy, d.hist.starts[i], d.hist.starts[j])
  {
    Rows(c, rid);
    var n := |c.hist.starts|;
    forall i | 0 <= i < |d.hist.starts| ensures StartOk(d, i) && (i < n ==> Apart(c.policy, d.hist.starts[i], st)) {
      if i < n {
        assert StartOk(c, i) && d.hist.starts[i] == c.hist.starts[i];
        assert c.hist.starts[i].born != st.born;
      }
    }
  }

  lemma {:induction false} FinalStarted(c: Core, d: Core, b: nat, st: Start)
    requires b in c.hist.finals && FinalOk(c, b) && b != st.born
    requires d.hist.starts == c.hist.starts + [st] && d.hist.sends == c.hist.sends && d.hist.finals == c.hist.finals
    requires d.db.births == c.db.births
    ensures FinalOk(d, b)
  {
    if WasDelivered(c, b) { assert WasDelivered(d, b); }
    if WasRefused(c, b) { assert WasRefused(d, b); }
  }

  lemma {:induction false} MarkRowFrame(c: Core, d: Core, r: RequestId, st: Start)
    requires r in c.db.receipts && r in d.db.receipts && d.db.receipts[r] == c.db.receipts[r] && RowOk(c, r)
    requires d.hist.starts == c.hist.starts + [st] && d.hist.sends == c.hist.sends && d.hist.finals == c.hist.finals
    requires d.now == c.now && d.db.births == c.db.births && d.db.tokens == c.db.tokens
    requires c.db.receipts[r].born != st.born
    requires r in c.db.ledger ==> r in d.db.ledger && d.db.ledger[r] == c.db.ledger[r]
    ensures RowOk(d, r)
  {
    var row := c.db.receipts[r];
    if row.state.SendStarted? {
      var i :| 0 <= i < |c.hist.starts| && c.hist.starts[i].token == row.owner.value && c.hist.starts[i].rid == r && c.hist.starts[i].born == row.born;
      assert d.hist.starts[i] == c.hist.starts[i];
      if Queued(r, row) { assert SentWith(d, r, row.owner.value, row.born, Prompted(WrittenToPty)); }
    }
  }

  // ----- Backend calls -----

  lemma {:induction false} SentOk(c: Core, req: Request, lease: Lease, outcome: Outcome)
    requires CoreOk(c) && LeaseOk(c, req, lease) && NoSend(c, lease.token)
    requires StartedBy(c, req.rid, lease.token, lease.born)
    ensures var d := Sent(c, req, lease, outcome);
            && CoreOk(d) && Grows(c, d, Some(lease.token)) && LeaseOk(d, req, lease)
            && StartedBy(d, req.rid, lease.token, lease.born)
            && SentWith(d, req.rid, lease.token, lease.born, outcome)
  {
    var d := Sent(c, req, lease, outcome);
    var n := |c.hist.sends|;
    assert d.hist.sends[n] == Send(req.rid, lease.token, lease.born, outcome);
    assert Grows(c, d, Some(lease.token));
    HistoryGrows(c, d, Some(lease.token));
    forall r | r in d.db.receipts ensures RowOk(d, r) { assert RowOk(c, r); }
    forall i | 0 <= i < |d.hist.starts| ensures StartOk(d, i) { assert StartOk(c, i); }
    forall k | 0 <= k < |d.hist.sends| ensures SendOk(d, k) {
      if k < n { assert SendOk(c, k) && d.hist.sends[k] == c.hist.sends[k]; }
    }
    forall b | b in d.hist.finals ensures FinalOk(d, b) { assert FinalOk(c, b); }
  }

  // ----- Owner writes after send start -----

  lemma {:induction false} QueueOk(c: Core, req: Request, lease: Lease)
    requires CoreOk(c) && LeaseOk(c, req, lease)
    requires SentWith(c, req.rid, lease.token, lease.born, Prompted(WrittenToPty))
    ensures var (db', reply) := QueueTx(c.db, c.now, req.rid, lease.canon, lease.token, QueuedEnvelope(req));
            var d := Committed(c, req.rid, db');
            && CoreOk(d) && Grows(c, d, Some(lease.token))
            && (reply.row.Some? ==> req.rid in d.db.receipts && reply.row.value == d.db.receipts[req.rid])
  {
    var rid := req.rid;
    var (db', reply) := QueueTx(c.db, c.now, rid, lease.canon, lease.token, QueuedEnvelope(req));
    var d := Committed(c, rid, db');
    if rid in c.db.receipts { assert RowOk(c, rid); }
    hide Grows;
    if !reply.tag.TQueued? {
      assert d.hist.finals == c.hist.finals;
      SameReceiptsOk(c, d, Some(lease.token));
    } else {
      Rows(c, rid);
      StartsKept(c, d, rid);
      assert StartedBy(d, rid, lease.token, lease.born);
      assert SentWith(d, rid, lease.token, lease.born, Prompted(WrittenToPty));
      OneRowOk(c, d, rid);
      OneRowGrows(c, d, rid, Some(lease.token));
    }
  }

  lemma {:induction false} FinishShape(c: Core, rid: RequestId, canon: Canonical, token: nat, from: ReceiptState, terminal: ReceiptState,
                    env: Envelope, effect: Option<(nat, WorkerId)>)
    ensures var (db', reply) := FinishTx(c.db, c.now, rid, canon, token, from, terminal, env, effect);
            && (reply.row.Some? ==> rid in db'.receipts && reply.row.value == db'.receipts[rid])
            && (db' != c.db ==>
                  && rid in c.db.receipts && c.db.receipts[rid].state == from && !IsTerminal(from)
                  && c.db.receipts[rid].owner == Some(token) && c.db.receipts[rid].canon == canon
                  && LegalFinish(from, terminal, env.status)
                  && OneRow(c, Committed(c, rid, db'), rid) && db'.tokens == c.db.tokens && db'.births == c.db.births
                  && db'.receipts[rid] == TerminalRow(c.db.receipts[rid], c.now, terminal, env.status, Doc(env)))
  {
  }

  lemma {:induction false} FinishOk(c: Core, req: Request, lease: Lease, from: ReceiptState, terminal: ReceiptState, env: Envelope,
                 effect: Option<(nat, WorkerId)>)
    requires CoreOk(c) && LeaseOk(c, req, lease) && WritableEnvelope(req, from, terminal, env)
    requires terminal.Accepted? ==> WasDelivered(c, lease.born)
    requires from.SendStarted? && terminal.Rejected? ==> WasRefused(c, lease.born)
    ensures var (db', reply) := FinishTx(c.db, c.now, req.rid, lease.canon, lease.token, from, terminal, env, effect);
            var d := Committed(c, req.rid, db');
            && CoreOk(d) && Grows(c, d, Some(lease.token))
            && (reply.row.Some? ==> req.rid in d.db.receipts && reply.row.value == d.db.receipts[req.rid])
  {
    var rid := req.rid;
    FinishShape(c, rid, lease.canon, lease.token, from, terminal, env, effect);
    var db' := FinishTx(c.db, c.now, rid, lease.canon, lease.token, from, terminal, env, effect).0;
    var d := Committed(c, rid, db');
    if rid in c.db.receipts { Rows(c, rid); }
    if db' == c.db { UnwrittenOk(c, rid, Some(lease.token)); }
    else { TerminalizeOk(c, d, rid, terminal, env.status, Doc(env), Some(lease.token)); }
  }

  /** Committing an unchanged database notes nothing new. */
  lemma {:induction false} UnwrittenOk(c: Core, rid: RequestId, t: Option<nat>)
    requires CoreOk(c)
    ensures Committed(c, rid, c.db) == c && Grows(c, c, t)
  {
    if rid in c.db.receipts { assert RowOk(c, rid); }
  }

  // ----- Writes without an owner -----

  /** A written-to-pty send is never accepted by settlement: its ledger cannot become linked. */
  lemma {:induction false} QueuedNeverConcludes(c: Core, rid: RequestId, canon: Canonical, seen: Receipt, env: Envelope)
    requires CoreOk(c) && Queued(rid, seen) && seen.canon == canon
    ensures FinishQueuedTx(c.db, c.now, rid, canon, seen.result, env).0 == c.db
  {
    if ResultCheck(c.db, rid, canon, seen.result).None? {
      assert RowOk(c, rid);
      assert Queued(rid, c.db.receipts[rid]);
    }
  }

  lemma {:induction false} ConcludeOk(c: Core, req: Request, canon: Canonical, seen: Receipt, verdict: Envelope)
    requires CoreOk(c) && Queued(req.rid, seen) && SameRequest(req, canon, seen)
    requires verdict.ok || verdict == ExpiredQueueEnvelope(req)
    ensures var tx := ConcludeTx(c.db, c.now, req.rid, canon, seen.result, verdict);
            var d := Committed(c, req.rid, tx.0);
            && CoreOk(d) && Grows(c, d, Some(c.db.tokens))
            && (tx.1.row.Some? ==> req.rid in d.db.receipts && tx.1.row.value == d.db.receipts[req.rid])
  {
    var rid := req.rid;
    var tx := ConcludeTx(c.db, c.now, rid, canon, seen.result, verdict);
    var d := Committed(c, rid, tx.0);
    if verdict.ok { QueuedNeverConcludes(c, rid, canon, seen, verdict); }
    if rid in c.db.receipts { assert RowOk(c, rid); }
    if tx.0 == c.db {
      assert d.hist.finals == c.hist.finals;
      SameReceiptsOk(c, d, Some(c.db.tokens));
    } else {
      TerminalizeOk(c, d, rid, Uncertain, StUncertain, Doc(verdict), Some(c.db.tokens));
    }
  }

  lemma {:induction false} RecoverShape(c: Core, rid: RequestId, canon: Canonical, guard: Stored, env: Envelope)
    ensures var (db', reply) := RecoverTx(c.db, c.now, rid, canon, guard, env);
            && (reply.row.Some? ==> rid in db'.receipts && reply.row.value == db'.receipts[rid])
            && (db' != c.db ==>
                  && rid in c.db.receipts && c.db.receipts[rid].state.SendStarted? && c.db.receipts[rid].canon == canon
                  && c.db.receipts[rid].result == guard && !Live(c.db.receipts[rid], c.now)
                  && OneRow(c, Committed(c, rid, db'), rid) && db'.tokens == c.db.tokens && db'.births == c.db.births
                  && db'.receipts[rid] == TerminalRow(c.db.receipts[rid], c.now, Uncertain, StUncertain, Doc(env)))
  {
  }

  lemma {:induction false} RecoverOk(c: Core, req: Request, canon: Canonical, guard: Stored)
    requires CoreOk(c) && canon.action == req.action
    ensures var (db', reply) := RecoverTx(c.db, c.now, req.rid, canon, guard, RecoveredEnvelope(req));
            var d := Committed(c, req.rid, db');
            && CoreOk(d) && Grows(c, d, Some(c.db.tokens))
            && (reply.row.Some? ==> req.rid in d.db.receipts && reply.row.value == d.db.receipts[req.rid])
  {
    var rid := req.rid;
    RecoverShape(c, rid, canon, guard, RecoveredEnvelope(req));
    var db' := RecoverTx(c.db, c.now, rid, canon, guard, RecoveredEnvelope(req)).0;
    if db' == c.db { UnwrittenOk(c, rid, Some(c.db.tokens)); }
    else {
      TerminalizeOk(c, Committed(c, rid, db'), rid, Uncertain, StUncertain, Doc(RecoveredEnvelope(req)), Some(c.db.tokens));
    }
  }

  lemma {:induction false} ReplayOk(c: Core, req: Request, canon: Canonical, seen: Receipt, env: Envelope)
    requires CoreOk(c) && SeenOk(c, req.rid, seen) && IsTerminal(seen.state) && CopyOk(req, canon, seen, env)
    ensures var (terminal, evidence) := ReplayEvidence(req, seen, env);
            var (db', reply) := ReplayTx(c.db, c.now, req.rid, canon, terminal, evidence, seen.proof);
            var d := Committed(c, req.rid, db');
            && CoreOk(d) && Grows(c, d, Some(c.db.tokens))
            && (reply.row.Some? ==> req.rid in d.db.receipts && reply.row.value == d.db.receipts[req.rid])
  {
    var rid := req.rid;
    var (terminal, evidence) := ReplayEvidence(req, seen, env);
    var (db', reply) := ReplayTx(c.db, c.now, rid, canon, terminal, evidence, seen.proof);
    var d := Committed(c, rid, db');
    if rid in c.db.receipts {
      assert RowOk(c, rid);
      assert d.hist.finals == c.hist.finals;
      SameReceiptsOk(c, d, Some(c.db.tokens));
    } else {
      WrittenRowsDecode(req, canon, seen);
      NewNumber(c);
      FreshOwner(c, rid, d.db.receipts[rid]);
      StartsOutlived(c, d, rid);
      OneRowOk(c, d, rid);
      OneRowGrows(c, d, rid, Some(c.db.tokens));
    }
  }

  // ----- Maintenance, the ledger sweep, and time -----

  lemma {:induction false} GivenUpOk(c: Core, rid: RequestId, t: Option<nat>)
    requires CoreOk(c) && rid in c.db.receipts && c.db.receipts[rid].state.SendStarted?
    ensures var row := c.db.receipts[rid];
            var db' := WithLedger(Put(c.db, rid, TerminalRow(row, c.now, Uncertain, StUncertain, Opaque)), c.now, rid, Uncertain);
            CoreOk(Committed(c, rid, db')) && Grows(c, Committed(c, rid, db'), t)
  {
    hide CoreOk;
    hide Grows;
    var row := TerminalRow(c.db.receipts[rid], c.now, Uncertain, StUncertain, Opaque);
    TerminalizeOk(c, Committed(c, rid, WithLedger(Put(c.db, rid, row), c.now, rid, Uncertain)), rid, Uncertain, StUncertain, Opaque, t);
  }

  lemma {:induction false} MaintainOk(c: Core, rid: RequestId, t: Option<nat>)
    requires CoreOk(c)
    ensures var d := Committed(c, rid, MaintainTx(c.db, c.now, c.policy, rid)); CoreOk(d) && Grows(c, d, t)
  {
    if rid in c.db.receipts {
      assert RowOk(c, rid);
      if c.db.receipts[rid].state.SendStarted? { GivenUpOk(c, rid, t); }
    }
    hide CoreOk;
    hide Grows;
    hide WithLedger;
    hide Deletable;
    hide TerminalRow;
    var db' := MaintainTx(c.db, c.now, c.policy, rid);
    var d := Committed(c, rid, db');
    if db' == c.db {
      assert d.hist.finals == c.hist.finals;
      SameReceiptsOk(c, d, t);
    } else if !c.db.receipts[rid].state.SendStarted? {
      DeleteOk(c, d, rid, t);
    }
  }

  lemma {:induction false} DeleteOk(c: Core, d: Core, rid: RequestId, t: Option<nat>)
    requires CoreOk(c) && Deletable(c.db, c.now, c.policy, rid)
    requires d == c.(db := c.db.(receipts := c.db.receipts - {rid}, ledger := c.db.ledger - {rid}))
    ensures CoreOk(d) && Grows(c, d, t)
  {
    var row := c.db.receipts[rid];
    assert RowOk(c, rid);
    forall r | r in d.db.receipts ensures RowOk(d, r) { assert RowOk(c, r); RowFrame(c, d, r); }
    forall i | 0 <= i < |d.hist.starts| ensures StartOk(d, i) { assert StartOk(c, i); }
    SendFrame(c, d);
    forall b | b in d.hist.finals ensures FinalOk(d, b) { FinalFrame(c, d, b); }
  }

  lemma {:induction false} SettleOk(c: Core, rid: RequestId, outcome: LinkOutcome, t: Option<nat>)
    requires CoreOk(c)
    ensures var d := c.(db := SettleTx(c.db, c.now, rid, outcome)); CoreOk(d) && Grows(c, d, t)
  {
    var d := c.(db := SettleTx(c.db, c.now, rid, outcome));
    forall r | r in d.db.receipts ensures RowOk(d, r) {
      assert RowOk(c, r);
      if r != rid { RowFrame(c, d, r); }
      else {
        var row := c.db.receipts[r];
        if row.state.SendStarted? {
          assert StartedBy(d, r, row.owner.value, row.born);
          if Queued(r, row) { assert SentWith(d, r, row.owner.value, row.born, Prompted(WrittenToPty)); }
        }
        if row.state.Reserved? { assert NeverStarted(d, row.born); }
      }
    }
    forall i | 0 <= i < |d.hist.starts| ensures StartOk(d, i) { assert StartOk(c, i); }
    SendFrame(c, d);
    forall b | b in d.hist.finals ensures FinalOk(d, b) { FinalFrame(c, d, b); }
  }

  lemma {:induction false} TickOk(c: Core, seconds: nat, t: Option<nat>)
    requires CoreOk(c)
    ensures var d := c.(now := c.now + seconds); CoreOk(d) && Grows(c, d, t)
  {
    var d := c.(now := c.now + seconds);
    forall r | r in d.db.receipts ensures RowOk(d, r) { RowFrame(c, d, r); }
    forall i | 0 <= i < |d.hist.starts| ensures StartOk(d, i) { assert StartOk(c, i); }
    SendFrame(c, d);
    forall b | b in d.hist.finals ensures FinalOk(d, b) { FinalFrame(c, d, b); }
  }
}
