/** The documented contract of one call: what is stored, and which HTTP status is answered when. */
module Responses {
  import opened Events

  // ---------------------------------------------------------------- nothing of a payload is lost

  /** The payload that a stored row tells. */
  function PayloadOf(cat: Catalog, row: Row): Payload
    requires row.storeId in cat.storeCodes && row.productId in cat.productSkus && row.Checks()
  {
    Payload(
      row.eventId,
      cat.storeCodes[row.storeId],
      cat.productSkus[row.productId],
      if row.eventType.SALE? then Sale else Refund(row.originalEventId.value),
      row.quantity,
      row.amountCents,
      row.occurredAt,
      row.sourceInstance,
      row.metadata,
      row.note)
  }

  /** Every field of a payload can be read back from its row, and the row's time is the receipt's. */
  lemma RowRoundTrips(cat: Catalog, p: Payload, storeId: Uuid, productId: Uuid, receivedAt: Instant)
    requires cat.Valid() && cat.Resolves(p, storeId, productId)
    requires RowFor(p, storeId, productId, receivedAt).Checks()
    ensures
      var row := RowFor(p, storeId, productId, receivedAt);
      && row.receivedAt == receivedAt
      && row.storeId in cat.storeCodes && row.productId in cat.productSkus
      && PayloadOf(cat, row) == p
  {
  }

  /** A duplicate agrees with the stored event in every producer field: the payload that was answered
      "duplicate" is the one the row tells, and any other payload with this id is a conflict. */
  lemma DuplicateIsTheStoredPayload(cat: Catalog, rows: seq<Row>, p: Payload, now: Instant)
    requires cat.Valid() && Legal(cat, rows) && Find(rows, p.eventId).Some?
    ensures
      var row := Find(rows, p.eventId).value;
      && row.storeId in cat.storeCodes && row.productId in cat.productSkus && row.Checks()
      && Judge(cat, rows, p, now)
         == if p == PayloadOf(cat, row) then Duplicate(row.receivedAt) else EventConflict
  {
    FoundIsSound(cat, rows, p.eventId);
    var row := Find(rows, p.eventId).value;
    assert p.storeCode in cat.storeIds && cat.storeIds[p.storeCode] == row.storeId
           <==> cat.storeCodes[row.storeId] == p.storeCode;
    assert p.productSku in cat.productIds && cat.productIds[p.productSku] == row.productId
           <==> cat.productSkus[row.productId] == p.productSku;
  }

  // ---------------------------------------------------------------- the documented statuses

  predicate IsStored(cat: Catalog, rows: seq<Row>, p: Payload) {
    exists i | 0 <= i < |rows| :: rows[i].eventId == p.eventId && IsRecordOf(cat, rows[i], p)
  }

  predicate IdIsTaken(cat: Catalog, rows: seq<Row>, p: Payload) {
    exists i | 0 <= i < |rows| :: rows[i].eventId == p.eventId && !IsRecordOf(cat, rows[i], p)
  }

  predicate OriginalIsMissing(rows: seq<Row>, p: Payload) {
    p.kind.Refund? && forall i | 0 <= i < |rows| :: rows[i].eventId != p.kind.originalEventId
  }

  lemma VerdictOfIngest(cat: Catalog, db: Db, p: Payload, now: Instant)
    requires cat.Valid() && Legal(cat, db.rows)
    ensures Ingest(cat, db, p, now).1 == Judge(cat, db.rows, p, now)
    ensures !Judge(cat, db.rows, p, now).Aborted?
  {
  }

  /** The HTTP status of a call, by what is in the table: 201 for a new valid event, 200 for an exact
      retry, 409 for an id that is taken by another payload and for an exceeded limit, 404 for
      what does not exist, 422 for a wrong reference; and no internal error. */
  lemma StatusAsDocumented(cat: Catalog, db: Db, p: Payload, now: Instant)
    requires cat.Valid() && Legal(cat, db.rows) && p.Valid()
    ensures
      var status, rows := HttpStatus(Ingest(cat, db, p, now).1), db.rows;
      && (status == 201 <==> Acceptable(cat, rows, p))
      && (status == 200 <==> IsStored(cat, rows, p))
      && (status == 409 <==>
            || IdIsTaken(cat, rows, p)
            || OriginalCauses(cat, rows, p, QuantityLimitExceeded) || OriginalCauses(cat, rows, p, AmountLimitExceeded))
      && (status == 404 <==> NewId(rows, p) && (!cat.Knows(p) || OriginalIsMissing(rows, p)))
      && (status == 422 <==>
            || OriginalCauses(cat, rows, p, InvalidOriginalSale)
            || OriginalCauses(cat, rows, p, StoreMismatch) || OriginalCauses(cat, rows, p, ProductMismatch))
      && status in {200, 201, 404, 409, 422}
  {
    hide Acceptable, OriginalCauses, NewId, Legal, Judge, IsRecordOf;
    AcceptedExactly(cat, db, p, now);
    KnownIdVerdicts(cat, db.rows, p, now);
    MissingExactly(cat, db.rows, p, now);
    VerdictOfIngest(cat, db, p, now);
    RefusalsExactly(cat, db.rows, p, now, InvalidOriginalSale);
    RefusalsExactly(cat, db.rows, p, now, StoreMismatch);
    RefusalsExactly(cat, db.rows, p, now, ProductMismatch);
    RefusalsExactly(cat, db.rows, p, now, QuantityLimitExceeded);
    RefusalsExactly(cat, db.rows, p, now, AmountLimitExceeded);
  }
}
