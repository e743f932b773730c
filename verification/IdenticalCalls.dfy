/** What happens to any number of calls that carry the same payload. */
module IdenticalCalls {
  import opened Events
  import opened Sessions
  import opened Refinement
  import opened Guarantees

  /** A complete schedule in which no call is ended from outside, in which only this payload uses its id. */
  predicate Settled(end: State, acts: seq<Action>, p: Payload) {
    && NothingEnds(acts)
    && (forall j | 0 <= j < |end.sessions| :: Finished(end.sessions[j]))
    && (forall j | 0 <= j < |end.sessions| && end.sessions[j].payload.eventId == p.eventId ::
          end.sessions[j].payload == p)
  }

  predicate Calls(s: State, i: nat, p: Payload) {
    i < |s.sessions| && s.sessions[i].payload == p
  }

  ghost predicate IsCalled(s: State, p: Payload) {
    exists i: nat :: Calls(s, i, p)
  }

  /** Call i is accepted, and every other call is a duplicate that carries its received_at. */
  predicate OnlyAccepted(end: State, p: Payload, i: nat) {
    && Calls(end, i, p) && AcceptedHere(end, i)
    && forall j | 0 <= j < |end.sessions| && j != i && end.sessions[j].payload == p ::
         end.sessions[j].pc == Done(Duplicate(end.sessions[i].pc.verdict.receivedAt))
  }

  predicate RefusedByLimit(t: Session) {
    t.pc.Done? && (t.pc.verdict.QuantityLimitExceeded? || t.pc.verdict.AmountLimitExceeded?)
  }

  lemma EndIsSound(cat: Catalog, db: Db, acts: seq<Action>, k: nat)
    requires cat.Valid() && Legal(cat, db.rows) && k <= |acts|
    ensures Inv(cat, Fresh(db)) && Inv(cat, Run(cat, Fresh(db), acts[..k]))
    ensures Legal(cat, Run(cat, Fresh(db), acts[..k]).db.rows)
    ensures db.rows <= Run(cat, Fresh(db), acts[..k]).db.rows
  {
    FreshIsInv(cat, db);
    RunKeepsInv(cat, Fresh(db), acts[..k]);
    assert acts[..k][..0] == [];
    RunExtendsTable(cat, Fresh(db), acts[..k], 0);
  }

  /** A call that found its own id had an accepted call before it. */
  lemma ConflictIsImpossible(cat: Catalog, db: Db, acts: seq<Action>, p: Payload, j: nat)
    requires cat.Valid() && Legal(cat, db.rows) && cat.Knows(p) && Find(db.rows, p.eventId).None?
    requires Settled(Run(cat, Fresh(db), acts), acts, p) && Calls(Run(cat, Fresh(db), acts), j, p)
    ensures !Run(cat, Fresh(db), acts).sessions[j].pc.verdict.EventConflict?
  {
    hide Inv, Step, Legal;
    var end := Run(cat, Fresh(db), acts);
    assert acts[..|acts|] == acts;
    EndIsSound(cat, db, acts, |acts|);
    SessionIsOk(cat, end, j);
    if end.sessions[j].pc.verdict.EventConflict? {
      var i := RowsComeFromCommits(cat, Fresh(db), acts, p.eventId);
      ReceiptMeansRecorded(cat, end, i);
    }
  }

  /** An accepted call makes every other call that could not be told "no such original" a duplicate. */
  lemma OthersAreDuplicates(cat: Catalog, db: Db, acts: seq<Action>, p: Payload) returns (i: nat)
    requires cat.Valid() && Legal(cat, db.rows) && Find(db.rows, p.eventId).None?
    requires Settled(Run(cat, Fresh(db), acts), acts, p)
    requires Find(Run(cat, Fresh(db), acts).db.rows, p.eventId).Some?
    requires
      var end := Run(cat, Fresh(db), acts);
      forall j: nat | Calls(end, j, p) :: !end.sessions[j].pc.verdict.OriginalSaleNotFound?
    ensures OnlyAccepted(Run(cat, Fresh(db), acts), p, i)
  {
    var end := Run(cat, Fresh(db), acts);
    FreshIsInv(cat, db);
    i := RowsComeFromCommits(cat, Fresh(db), acts, p.eventId);
    forall j | 0 <= j < |end.sessions| && j != i && end.sessions[j].payload == p
      ensures end.sessions[j].pc == Done(Duplicate(end.sessions[i].pc.verdict.receivedAt))
    {
      NoAbortNoAborted(cat, Fresh(db), acts, j);
      RefusalsAreFinal(cat, Fresh(db), acts, i, j);
    }
  }

  // ---------------------------------------------------------------- sales

  /** A SALE call for a known store and product, whose id only this payload uses, gets a receipt. */
  lemma SaleGetsReceipt(cat: Catalog, db: Db, acts: seq<Action>, p: Payload, k: nat)
    requires cat.Valid() && Legal(cat, db.rows)
    requires p.kind.Sale? && cat.Knows(p) && Find(db.rows, p.eventId).None?
    requires Settled(Run(cat, Fresh(db), acts), acts, p) && Calls(Run(cat, Fresh(db), acts), k, p)
    ensures Receipt(Run(cat, Fresh(db), acts).sessions[k].pc.verdict)
  {
    var end := Run(cat, Fresh(db), acts);
    assert acts[..|acts|] == acts;
    EndIsSound(cat, db, acts, |acts|);
    NoAbortNoAborted(cat, Fresh(db), acts, k);
    ConflictIsImpossible(cat, db, acts, p, k);
    SessionIsOk(cat, end, k);
  }

  /** Any number of identical SALE calls, in any complete schedule without aborts: exactly one is
      accepted, and all others are duplicates that carry the accepted call's received_at. */
  lemma ExactlyOneSaleAccepted(cat: Catalog, db: Db, acts: seq<Action>, p: Payload) returns (i: nat)
    requires cat.Valid() && Legal(cat, db.rows)
    requires p.kind.Sale? && cat.Knows(p) && Find(db.rows, p.eventId).None?
    requires Settled(Run(cat, Fresh(db), acts), acts, p) && IsCalled(Run(cat, Fresh(db), acts), p)
    ensures OnlyAccepted(Run(cat, Fresh(db), acts), p, i)
  {
    var end := Run(cat, Fresh(db), acts);
    assert acts[..|acts|] == acts;
    EndIsSound(cat, db, acts, |acts|);
    forall j: nat | Calls(end, j, p) ensures Receipt(end.sessions[j].pc.verdict) {
      SaleGetsReceipt(cat, db, acts, p, j);
    }
    var k: nat :| Calls(end, k, p);
    ReceiptMeansRecorded(cat, end, k);
    i := OthersAreDuplicates(cat, db, acts, p);
  }

  // ---------------------------------------------------------------- refunds

  /** The refund's original is a stored sale of its store and product. */
  predicate OriginalIsSold(cat: Catalog, rows: seq<Row>, p: Payload) {
    && p.kind.Refund? && cat.Knows(p)
    && Find(rows, p.kind.originalEventId).Some?
    && var original := Find(rows, p.kind.originalEventId).value;
    && original.IsSale()
    && original.eventId == p.kind.originalEventId
    && original.storeId == cat.storeIds[p.storeCode]
    && original.productId == cat.productIds[p.productSku]
  }

  /** A stored sale is found by every call that starts after it. */
  lemma SoldIsFound(cat: Catalog, db: Db, acts: seq<Action>, p: Payload, j: nat)
    requires cat.Valid() && Legal(cat, db.rows) && OriginalIsSold(cat, db.rows, p)
    requires Decided(Run(cat, Fresh(db), acts), j) && Calls(Run(cat, Fresh(db), acts), j, p)
    ensures !Run(cat, Fresh(db), acts).sessions[j].pc.verdict.OriginalSaleNotFound?
  {
    hide Inv, Step, Legal;
    var end := Run(cat, Fresh(db), acts);
    FreshIsInv(cat, db);
    if end.sessions[j].pc.verdict.OriginalSaleNotFound? {
      VerdictsAreSequential(cat, Fresh(db), acts, j);
      var k: nat :| Moment(cat, Fresh(db), acts, j, k, OriginalSaleNotFound);
      EndIsSound(cat, db, acts, k);
      assert acts[..|acts|] == acts;
      StillThere(cat, Fresh(db), acts, j, k, |acts|);
      FindIsStable(cat, db.rows, Run(cat, Fresh(db), acts[..k]).db.rows, p.kind.originalEventId);
    }
  }

  /** An identical refund is answered with a receipt or refused by a limit. */
  lemma RefundGetsReceiptOrLimit(cat: Catalog, db: Db, acts: seq<Action>, p: Payload, j: nat)
    requires cat.Valid() && Legal(cat, db.rows)
    requires OriginalIsSold(cat, db.rows, p) && Find(db.rows, p.eventId).None?
    requires Settled(Run(cat, Fresh(db), acts), acts, p) && Calls(Run(cat, Fresh(db), acts), j, p)
    ensures !Run(cat, Fresh(db), acts).sessions[j].pc.verdict.OriginalSaleNotFound?
    ensures
      var t := Run(cat, Fresh(db), acts).sessions[j];
      Receipt(t.pc.verdict) || RefusedByLimit(t)
  {
    var end := Run(cat, Fresh(db), acts);
    assert acts[..|acts|] == acts;
    EndIsSound(cat, db, acts, |acts|);
    NoAbortNoAborted(cat, Fresh(db), acts, j);
    ConflictIsImpossible(cat, db, acts, p, j);
    SoldIsFound(cat, db, acts, p, j);
    FindIsStable(cat, db.rows, end.db.rows, p.kind.originalEventId);
    SessionIsOk(cat, end, j);
  }

  /** Any number of identical refunds of a stored sale, among any other calls, in any complete
      schedule without aborts: exactly one is accepted and all others are duplicates with its
      received_at, or all of them are refused by a limit. */
  lemma IdenticalRefundsShareOneFate(cat: Catalog, db: Db, acts: seq<Action>, p: Payload)
    returns (accepted: Option<nat>)
    requires cat.Valid() && Legal(cat, db.rows)
    requires OriginalIsSold(cat, db.rows, p) && Find(db.rows, p.eventId).None?
    requires Settled(Run(cat, Fresh(db), acts), acts, p)
    ensures accepted.Some? <==> Find(Run(cat, Fresh(db), acts).db.rows, p.eventId).Some?
    ensures accepted.Some? ==> OnlyAccepted(Run(cat, Fresh(db), acts), p, accepted.value)
    ensures accepted.None? ==>
              var end := Run(cat, Fresh(db), acts);
              forall j: nat | Calls(end, j, p) :: RefusedByLimit(end.sessions[j])
  {
    var end := Run(cat, Fresh(db), acts);
    assert acts[..|acts|] == acts;
    EndIsSound(cat, db, acts, |acts|);
    forall j: nat | Calls(end, j, p)
      ensures !end.sessions[j].pc.verdict.OriginalSaleNotFound?
      ensures Receipt(end.sessions[j].pc.verdict) ==> Find(end.db.rows, p.eventId).Some?
      ensures Receipt(end.sessions[j].pc.verdict) || RefusedByLimit(end.sessions[j])
    {
      RefundGetsReceiptOrLimit(cat, db, acts, p, j);
      if Receipt(end.sessions[j].pc.verdict) {
        ReceiptMeansRecorded(cat, end, j);
      }
    }
    if Find(end.db.rows, p.eventId).Some? {
      var i := OthersAreDuplicates(cat, db, acts, p);
      accepted := Some(i);
    } else {
      accepted := None;
    }
  }

  /** Calls that refund p's sale carry p. */
  predicate NobodyElseRefunds(s: State, p: Payload) {
    forall j | 0 <= j < |s.sessions| && s.sessions[j].payload.kind == p.kind :: s.sessions[j].payload == p
  }

  /** As long as nobody but p's callers refunds the sale, and p is not stored, its sums stay. */
  lemma {:induction false} SumsWait(cat: Catalog, db: Db, acts: seq<Action>, p: Payload, m: Measure)
    requires cat.Valid() && Legal(cat, db.rows) && p.kind.Refund?
    requires NobodyElseRefunds(Run(cat, Fresh(db), acts), p)
    requires Find(Run(cat, Fresh(db), acts).db.rows, p.eventId).None?
    ensures Refunded(Run(cat, Fresh(db), acts).db.rows, p.kind.originalEventId, m)
            == Refunded(db.rows, p.kind.originalEventId, m)
  {
    if acts != [] {
      var before, a := Run(cat, Fresh(db), Init(acts)), Last(acts);
      FreshIsInv(cat, db);
      RunKeepsInv(cat, Fresh(db), Init(acts));
      RunKeepsInv(cat, Fresh(db), acts);
      StepExtendsTable(cat, before, a);
      AbsentBefore(cat, before.db.rows, Run(cat, Fresh(db), acts).db.rows, p.eventId);
      forall j | 0 <= j < |before.sessions| && before.sessions[j].payload.kind == p.kind
        ensures before.sessions[j].payload == p
      {
        StepKeepsPayload(cat, before, a, j);
      }
      SumsWait(cat, db, Init(acts), p, m);
      if CommitOf(before, a) != [] {
        var t := before.sessions[a.i];
        AppendRow(before.db.rows, RowFor(t.payload, t.pc.storeId, t.pc.productId, t.now));
      } else {
        StepRefines(cat, before, a);
      }
    }
  }

  lemma NobodyElseBefore(cat: Catalog, db: Db, acts: seq<Action>, p: Payload, k: nat)
    requires k <= |acts| && NobodyElseRefunds(Run(cat, Fresh(db), acts), p)
    ensures NobodyElseRefunds(Run(cat, Fresh(db), acts[..k]), p)
  {
    hide Step;
    assert acts[..|acts|] == acts;
    var at := Run(cat, Fresh(db), acts[..k]);
    forall j | 0 <= j < |at.sessions| && at.sessions[j].payload.kind == p.kind ensures at.sessions[j].payload == p {
      StillThere(cat, Fresh(db), acts, j, k, |acts|);
    }
  }

  lemma SameSumsSameFit(cat: Catalog, rows: seq<Row>, later: seq<Row>, p: Payload)
    requires OriginalIsSold(cat, later, p) && OriginalIsSold(cat, rows, p)
    requires Find(rows, p.kind.originalEventId) == Find(later, p.kind.originalEventId)
    requires Refunded(rows, p.kind.originalEventId, Quantity) == Refunded(later, p.kind.originalEventId, Quantity)
    requires Refunded(rows, p.kind.originalEventId, Amount) == Refunded(later, p.kind.originalEventId, Amount)
    requires RefundError(later, Find(later, p.kind.originalEventId).value,
                         cat.storeIds[p.storeCode], cat.productIds[p.productSku], p).None?
    ensures Fits(rows, Find(rows, p.kind.originalEventId).value, p)
  {
    NoErrorMeansFits(rows, Find(rows, p.kind.originalEventId).value,
                     cat.storeIds[p.storeCode], cat.productIds[p.productSku], p);
  }

  lemma AcceptedHasRoom(cat: Catalog, rows: seq<Row>, p: Payload, at: Instant, now: Instant)
    requires OriginalIsSold(cat, rows, p) && Judge(cat, rows, p, now) == Accepted(at)
    ensures Find(rows, p.eventId).None?
    ensures RefundError(rows, Find(rows, p.kind.originalEventId).value,
                        cat.storeIds[p.storeCode], cat.productIds[p.productSku], p).None?
  {
  }

  /** What was accepted fitted the table its call started on. */
  lemma AcceptedFitted(cat: Catalog, db: Db, acts: seq<Action>, p: Payload, i: nat)
    requires cat.Valid() && Legal(cat, db.rows) && OriginalIsSold(cat, db.rows, p)
    requires NobodyElseRefunds(Run(cat, Fresh(db), acts), p)
    requires Calls(Run(cat, Fresh(db), acts), i, p) && AcceptedHere(Run(cat, Fresh(db), acts), i)
    ensures Fits(db.rows, Find(db.rows, p.kind.originalEventId).value, p)
  {
    hide Inv, Step, Run, Legal, Judge, Fits, NobodyElseRefunds, RefundError;
    var end := Run(cat, Fresh(db), acts);
    FreshIsInv(cat, db);
    VerdictsAreSequential(cat, Fresh(db), acts, i);
    var k: nat :| Moment(cat, Fresh(db), acts, i, k, end.sessions[i].pc.verdict);
    var at := Run(cat, Fresh(db), acts[..k]);
    assert acts[..|acts|] == acts;
    StillThere(cat, Fresh(db), acts, i, k, |acts|);
    EndIsSound(cat, db, acts, k);
    NobodyElseBefore(cat, db, acts, p, k);
    FindIsStable(cat, db.rows, at.db.rows, p.kind.originalEventId);
    AcceptedHasRoom(cat, at.db.rows, p, end.sessions[i].pc.verdict.receivedAt, at.sessions[i].now);
    SumsWait(cat, db, acts[..k], p, Quantity);
    SumsWait(cat, db, acts[..k], p, Amount);
    SameSumsSameFit(cat, db.rows, at.db.rows, p);
  }

  lemma FitsInEach(rows: seq<Row>, original: Row, p: Payload)
    requires Fits(rows, original, p)
    ensures HasRoom(rows, p, original, Quantity) && HasRoom(rows, p, original, Amount)
  {
    forall m: Measure ensures HasRoom(rows, p, original, m) {
    }
  }

  /** When nobody else refunds that sale, one of the identical refunds is accepted exactly when the
      refund fits into what was left of the sale before any of them. */
  lemma RefundAcceptedOnceExactly(cat: Catalog, db: Db, acts: seq<Action>, p: Payload) returns (accepted: Option<nat>)
    requires cat.Valid() && Legal(cat, db.rows)
    requires OriginalIsSold(cat, db.rows, p) && Find(db.rows, p.eventId).None?
    requires Settled(Run(cat, Fresh(db), acts), acts, p) && IsCalled(Run(cat, Fresh(db), acts), p)
    requires NobodyElseRefunds(Run(cat, Fresh(db), acts), p)
    ensures accepted.Some? <==> Fits(db.rows, Find(db.rows, p.kind.originalEventId).value, p)
    ensures accepted.Some? ==> OnlyAccepted(Run(cat, Fresh(db), acts), p, accepted.value)
    ensures accepted.None? ==>
              var end := Run(cat, Fresh(db), acts);
              forall j: nat | Calls(end, j, p) :: RefusedByLimit(end.sessions[j])
  {
    hide Inv, Step, Moved, Waits, Written;
    var end := Run(cat, Fresh(db), acts);
    accepted := IdenticalRefundsShareOneFate(cat, db, acts, p);
    if accepted.Some? {
      AcceptedFitted(cat, db, acts, p, accepted.value);
    } else {
      var k: nat :| Calls(end, k, p);
      assert RefusedByLimit(end.sessions[k]);
      assert acts[..|acts|] == acts;
      EndIsSound(cat, db, acts, |acts|);
      SessionIsOk(cat, end, k);
      FindIsStable(cat, db.rows, end.db.rows, p.kind.originalEventId);
      SumsWait(cat, db, acts, p, Quantity);
      SumsWait(cat, db, acts, p, Amount);
      if Fits(db.rows, Find(db.rows, p.kind.originalEventId).value, p) {
        FitsInEach(db.rows, Find(db.rows, p.kind.originalEventId).value, p);
      }
    }
  }
}
