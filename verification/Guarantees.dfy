/** What clients may rely on in every reachable state of concurrent ingestion. */
module Guarantees {
  import opened Events
  import opened Sessions
  import opened Refinement

  // ---------------------------------------------------------------- limits, including work in flight

  /** A refund of this sale that passed validation and is not committed. */
  predicate InFlightRefund(t: Session, saleId: Uuid) {
    && (t.pc.Inserting? || t.pc.Classifying? || t.pc.UpdatingStore? || t.pc.Committing?)
    && t.payload.kind == Refund(saleId)
  }

  function InFlightSize(sessions: seq<Session>, saleId: Uuid, m: Measure): int {
    if sessions == [] then 0
    else InFlightSize(Init(sessions), saleId, m)
         + if InFlightRefund(Last(sessions), saleId) then PayloadSize(m, Last(sessions).payload) else 0
  }

  lemma InFlightHoldsSale(cat: Catalog, s: State, i: nat, saleId: Uuid)
    requires Inv(cat, s) && i < |s.sessions| && InFlightRefund(s.sessions[i], saleId)
    ensures s.sessions[i].lock == Some(saleId)
  {
    hide Inv;
    SessionIsOk(cat, s, i);
  }

  lemma NotTwoInFlight(cat: Catalog, s: State, i: nat, j: nat, saleId: Uuid)
    requires Inv(cat, s) && i < |s.sessions| && j < |s.sessions|
    requires InFlightRefund(s.sessions[i], saleId) && InFlightRefund(s.sessions[j], saleId)
    ensures i == j
  {
    hide Inv, InFlightRefund;
    InFlightHoldsSale(cat, s, i, saleId);
    InFlightHoldsSale(cat, s, j, saleId);
    if i != j {
      AreApart(cat, s, i, j);
    }
  }

  /** Because the sale is locked, at most one session contributes. */
  lemma {:induction false} AtMostOneInFlight(cat: Catalog, s: State, n: nat, saleId: Uuid, m: Measure)
    returns (i: Option<nat>)
    requires Inv(cat, s) && n <= |s.sessions|
    ensures i.None? ==> InFlightSize(s.sessions[..n], saleId, m) == 0
    ensures i.Some? ==>
              && i.value < n && InFlightRefund(s.sessions[i.value], saleId)
              && InFlightSize(s.sessions[..n], saleId, m) == PayloadSize(m, s.sessions[i.value].payload)
  {
    hide Inv, InFlightRefund;
    if n == 0 {
      i := None;
    } else {
      assert Init(s.sessions[..n]) == s.sessions[..n - 1];
      i := AtMostOneInFlight(cat, s, n - 1, saleId, m);
      if InFlightRefund(s.sessions[n - 1], saleId) {
        if i.Some? {
          NotTwoInFlight(cat, s, i.value, n - 1, saleId);
        }
        i := Some(n - 1);
      }
    }
  }

  /** Committed refunds plus everything validated and still uncommitted stay within the sale. */
  lemma RefundsInFlightStayWithinSale(cat: Catalog, s: State, saleId: Uuid, m: Measure)
    requires Inv(cat, s)
    requires Find(s.db.rows, saleId).Some? && Find(s.db.rows, saleId).value.IsSale()
    ensures Refunded(s.db.rows, saleId, m) + InFlightSize(s.sessions, saleId, m)
            <= RowSize(m, Find(s.db.rows, saleId).value)
  {
    var i := AtMostOneInFlight(cat, s, |s.sessions|, saleId, m);
    assert s.sessions[..|s.sessions|] == s.sessions;
    if i.Some? {
      var t := s.sessions[i.value];
      assert SessionOk(cat, s.db.rows, t);
      assert Fits(s.db.rows, Find(s.db.rows, saleId).value, t.payload);
    } else {
      RefundsStayWithinSale(cat, s.db.rows, saleId, m);
    }
  }

  // ---------------------------------------------------------------- waiting

  /** The original is locked as soon as it is found, also when it turns out not to be a sale, and the
      lock is held until the call is done. */
  lemma LockLastsUntilTheEnd(cat: Catalog, s: State, a: Action, i: nat)
    requires Inv(cat, s) && i < |s.sessions|
    ensures
      var t, t' := s.sessions[i], Step(cat, s, a).sessions[i];
      && (t.pc.Locking? && t' != t && !t'.pc.Done? && Find(s.db.rows, t.pc.saleId).Some? ==>
            t'.lock == Some(t.pc.saleId))
      && (t.lock.Some? ==> t'.lock == t.lock || t'.pc.Done?)
  {
    hide Inv;
    SessionIsOk(cat, s, i);
  }

  /** Calls for different stores that share neither event id nor original sale never wait for each
      other. */
  lemma UnrelatedCallsDoNotWait(cat: Catalog, s: State, i: nat, j: nat)
    requires Inv(cat, s) && i < |s.sessions| && j < |s.sessions|
    requires
      var p, q := s.sessions[i].payload, s.sessions[j].payload;
      && p.eventId != q.eventId && p.storeCode != q.storeCode
      && (p.kind.Refund? && q.kind.Refund? ==> p.kind.originalEventId != q.kind.originalEventId)
    ensures !Blocks(s.sessions[i], s.sessions[j])
  {
    hide Inv;
    SessionIsOk(cat, s, i);
    SessionIsOk(cat, s, j);
  }

  // ---------------------------------------------------------------- the insert

  /** No row that ingestion tries to insert violates a CHECK or a foreign key, also when a
      refund's id equals its original's id. */
  lemma InsertIsWellFormed(cat: Catalog, s: State, i: nat)
    requires Inv(cat, s) && i < |s.sessions| && s.sessions[i].pc.Inserting?
    ensures
      var t := s.sessions[i];
      var row := RowFor(t.payload, t.pc.storeId, t.pc.productId, t.now);
      && row.Checks()
      && row.storeId in cat.storeCodes && row.productId in cat.productSkus
      && (row.originalEventId.Some? ==> Find(s.db.rows, row.originalEventId.value).Some?)
  {
    assert SessionOk(cat, s.db.rows, s.sessions[i]);
  }

  /** A refund whose insert returns no row lost its id to a different payload: it always ends in a
      conflict, never as a duplicate.  An identical refund is caught by one of the two lookups. */
  lemma LostRefundInsertIsConflict(cat: Catalog, s: State, i: nat)
    requires Inv(cat, s) && i < |s.sessions|
    requires s.sessions[i].pc.Classifying? && s.sessions[i].payload.kind.Refund?
    ensures Moved(cat, s.db.rows, s.sessions[i]).pc == Closing(EventConflict)
  {
    assert SessionOk(cat, s.db.rows, s.sessions[i]);
  }

  /** The errors for rows that should be visible cannot be raised. */
  lemma InternalErrorsAreUnreachable(cat: Catalog, s: State, acts: seq<Action>, i: nat)
    requires Inv(cat, s) && Decided(Run(cat, s, acts), i)
    ensures !Run(cat, s, acts).sessions[i].pc.verdict.InternalError?
  {
    RunKeepsInv(cat, s, acts);
    assert SessionOk(cat, Run(cat, s, acts).db.rows, Run(cat, s, acts).sessions[i]);
  }

  // ---------------------------------------------------------------- receipts

  /** A receipt, accepted or duplicate, carries the received_at of the stored row, and the stored
      row is exactly this payload. */
  predicate Recorded(cat: Catalog, rows: seq<Row>, p: Payload, at: Instant) {
    cat.Knows(p) &&
    Find(rows, p.eventId) == Some(RowFor(p, cat.storeIds[p.storeCode], cat.productIds[p.productSku], at))
  }

  predicate Receipt(v: Verdict) {
    v.Accepted? || v.Duplicate?
  }

  lemma ReceiptMeansRecorded(cat: Catalog, s: State, i: nat)
    requires Inv(cat, s) && Decided(s, i) && Receipt(s.sessions[i].pc.verdict)
    ensures Recorded(cat, s.db.rows, s.sessions[i].payload, s.sessions[i].pc.verdict.receivedAt)
  {
    assert SessionOk(cat, s.db.rows, s.sessions[i]);
  }

  predicate AcceptedHere(s: State, i: nat) {
    i < |s.sessions| && s.sessions[i].pc.Done? && s.sessions[i].pc.verdict.Accepted?
  }

  /** Once a payload is stored, every decided call with it, whenever it started, was accepted itself, or
      holds the stored row's receipt, or was told that the original sale did not exist yet, or
      ended with an error from outside. */
  lemma StoredIsFinal(cat: Catalog, s: State, p: Payload, at: Instant, j: nat)
    requires Inv(cat, s) && Recorded(cat, s.db.rows, p, at)
    requires Decided(s, j) && s.sessions[j].payload == p
    ensures
      var v := s.sessions[j].pc.verdict;
      v == Accepted(at) || v == Duplicate(at) || v.OriginalSaleNotFound? || v.Aborted?
  {
    hide Inv;
    SessionIsOk(cat, s, j);
    FoundIsSound(cat, s.db.rows, p.eventId);
  }

  /** Once a payload has been accepted, every other call with it, whenever it started and in
      whatever order the two ran, is answered with the same receipt, or was told that the
      original sale did not exist yet, or ended with an error from outside.  No limit, mismatch,
      conflict or "not a sale" refusal of a payload can stand beside its acceptance: refusals are
      final. */
  lemma RefusalsAreFinal(cat: Catalog, s: State, acts: seq<Action>, i: nat, j: nat)
    requires Inv(cat, s)
    requires
      var end := Run(cat, s, acts);
      && AcceptedHere(end, i) && Decided(end, j) && i != j
      && end.sessions[i].payload == end.sessions[j].payload
    ensures
      var end := Run(cat, s, acts);
      var v := end.sessions[j].pc.verdict;
      v == Duplicate(end.sessions[i].pc.verdict.receivedAt) || v.OriginalSaleNotFound? || v.Aborted?
  {
    hide Inv, Run, Recorded;
    var end := Run(cat, s, acts);
    RunKeepsInv(cat, s, acts);
    ReceiptMeansRecorded(cat, end, i);
    StoredIsFinal(cat, end, end.sessions[i].payload, end.sessions[i].pc.verdict.receivedAt, j);
    AreApart(cat, end, i, j);
    SessionIsOk(cat, end, j);
  }

  /** An event id is accepted at most once, whatever payloads use it. */
  lemma AtMostOneAccepted(cat: Catalog, s: State, acts: seq<Action>, i: nat, j: nat)
    requires Inv(cat, s)
    requires
      var end := Run(cat, s, acts);
      && AcceptedHere(end, i) && AcceptedHere(end, j)
      && end.sessions[i].payload.eventId == end.sessions[j].payload.eventId
    ensures i == j
  {
    RunKeepsInv(cat, s, acts);
    hide Inv;
    if i != j {
      AreApart(cat, Run(cat, s, acts), i, j);
    }
  }

  /** Call i committed: it was accepted, or its caller was cut off. */
  predicate CommittedHere(s: State, acts: seq<Action>, i: nat) {
    && i < |s.sessions| && s.sessions[i].pc.Done?
    && (s.sessions[i].pc.verdict.Accepted? || (s.sessions[i].pc.verdict.Aborted? && Sever(i) in acts))
  }

  /** The step that stores an id. */
  lemma CommitIsCommittedHere(cat: Catalog, s: State, a: Action, id: Uuid)
    requires Inv(cat, s) && Find(s.db.rows, id).None? && Find(Step(cat, s, a).db.rows, id).Some?
    ensures (a.Advance? || a.Sever?) && CommittedHere(Step(cat, s, a), [a], a.i)
    ensures s.sessions[a.i].payload.eventId == id
    ensures Recorded(cat, Step(cat, s, a).db.rows, s.sessions[a.i].payload, s.sessions[a.i].now)
    ensures Step(cat, s, a).sessions[a.i].payload == s.sessions[a.i].payload
    ensures Step(cat, s, a).sessions[a.i].now == s.sessions[a.i].now
  {
    var t := s.sessions[a.i];
    assert SessionOk(cat, s.db.rows, t);
    AppendRow(s.db.rows, RowFor(t.payload, t.pc.storeId, t.pc.productId, t.now));
  }

  lemma CommittedStays(cat: Catalog, s: State, acts: seq<Action>, a: Action, i: nat)
    requires CommittedHere(s, acts, i)
    ensures CommittedHere(Step(cat, s, a), acts + [a], i)
    ensures Step(cat, s, a).sessions[i] == s.sessions[i]
  {
  }

  lemma CommittedAmongMore(s: State, a: Action, acts: seq<Action>, i: nat)
    requires CommittedHere(s, [a], i) && a in acts
    ensures CommittedHere(s, acts, i)
  {
  }

  lemma StateIsLegal(cat: Catalog, s: State)
    requires Inv(cat, s)
    ensures Legal(cat, s.db.rows)
  {
  }

  lemma RecordedStays(cat: Catalog, s: State, a: Action, p: Payload, at: Instant)
    requires Inv(cat, s) && Recorded(cat, s.db.rows, p, at)
    ensures Recorded(cat, Step(cat, s, a).db.rows, p, at)
  {
    hide Inv, Step;
    StepExtendsTable(cat, s, a);
    StepKeepsInv(cat, s, a);
    StateIsLegal(cat, Step(cat, s, a));
    FindIsStable(cat, s.db.rows, Step(cat, s, a).db.rows, p.eventId);
  }

  /** A call that is cut off while it commits has stored its payload all the same. */
  lemma SeveredIsStored(cat: Catalog, s: State, i: nat)
    requires Inv(cat, s) && i < |s.sessions| && s.sessions[i].pc.Committing?
    ensures
      var s', t := Step(cat, s, Sever(i)), s.sessions[i];
      && s'.sessions[i].pc == Done(Aborted) && s'.sessions[i].payload == t.payload
      && Recorded(cat, s'.db.rows, t.payload, t.now)
  {
    hide Inv;
    SessionIsOk(cat, s, i);
    AppendRow(s.db.rows, RowFor(s.sessions[i].payload, s.sessions[i].pc.storeId, s.sessions[i].pc.productId,
                                s.sessions[i].now));
  }

  /** Every row a run added is the payload of a call that committed: it was accepted, or the answer
      to it was cut off. */
  lemma {:induction false} RowsComeFromCommits(cat: Catalog, s: State, acts: seq<Action>, id: Uuid) returns (i: nat)
    requires Inv(cat, s)
    requires Find(s.db.rows, id).None? && Find(Run(cat, s, acts).db.rows, id).Some?
    ensures i < |Run(cat, s, acts).sessions| && CommittedHere(Run(cat, s, acts), acts, i)
    ensures
      var t := Run(cat, s, acts).sessions[i];
      t.payload.eventId == id && Recorded(cat, Run(cat, s, acts).db.rows, t.payload, t.now)
  {
    hide Inv, Step, Find, CommittedHere, Recorded;
    var before, a := Run(cat, s, Init(acts)), Last(acts);
    RunKeepsInv(cat, s, Init(acts));
    if Find(before.db.rows, id).Some? {
      i := RowsComeFromCommits(cat, s, Init(acts), id);
      assert acts == Init(acts) + [a];
      CommittedStays(cat, before, Init(acts), a, i);
      RecordedStays(cat, before, a, before.sessions[i].payload, before.sessions[i].now);
    } else {
      CommitIsCommittedHere(cat, before, a, id);
      i := a.i;
      CommittedAmongMore(Run(cat, s, acts), a, acts, i);
    }
  }

  /** No call is ended from outside. */
  predicate NothingEnds(acts: seq<Action>) {
    forall a | a in acts :: !a.Abort? && !a.Sever?
  }

  lemma MovedIsNotAborted(cat: Catalog, rows: seq<Row>, t: Session)
    requires !t.pc.Closing? && !t.pc.Done?
    ensures
      var pc := Moved(cat, rows, t).pc;
      (pc.Closing? || pc.Done?) ==> !pc.verdict.Aborted?
  {
  }

  lemma {:induction false} NoAbortNoAborted(cat: Catalog, s: State, acts: seq<Action>, i: nat)
    requires Inv(cat, s) && |s.sessions| <= i
    requires NothingEnds(acts)
    requires Decided(Run(cat, s, acts), i)
    ensures !Run(cat, s, acts).sessions[i].pc.verdict.Aborted?
  {
    hide Inv, Waits, Written;
    if acts != [] {
      var before := Run(cat, s, Init(acts));
      RunKeepsInv(cat, s, Init(acts));
      if Decided(before, i) {
        NoAbortNoAborted(cat, s, Init(acts), i);
      } else if i < |before.sessions| {
        MovedIsNotAborted(cat, before.db.rows, before.sessions[i]);
      }
    }
  }
}
