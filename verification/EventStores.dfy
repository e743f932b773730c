/** Ingestion written statement by statement over a mutable store.  The rows that other callers
    commit between two statements are parameters. */
module EventStores {
  import opened Events

  datatype Outcome<+T> = Ok(value: T) | Raised(error: Verdict)

  /** Between two tables nobody refunded this sale. */
  predicate Frozen(rows: seq<Row>, later: seq<Row>, saleId: Uuid) {
    && Refunded(later, saleId, Quantity) == Refunded(rows, saleId, Quantity)
    && Refunded(later, saleId, Amount) == Refunded(rows, saleId, Amount)
  }

  /** A later legal table in which this sale has the same refunds. */
  predicate Later(cat: Catalog, table: seq<Row>, later: seq<Row>, saleId: Uuid) {
    Legal(cat, later) && Frozen(table, later, saleId)
  }

  lemma SameSumsSameError(rows: seq<Row>, later: seq<Row>, original: Row, store: Uuid, product: Uuid, p: Payload)
    requires Frozen(rows, later, original.eventId)
    ensures RefundError(later, original, store, product, p) == RefundError(rows, original, store, product, p)
  {
  }

  /** The store as one transaction sees it; lock is the sale it holds FOR UPDATE. */
  class EventStore {
    const cat: Catalog
    var rows: seq<Row>
    var lastSeen: map<Uuid, Instant>
    var lock: Option<Uuid>

    constructor (cat: Catalog, rows: seq<Row>, lastSeen: map<Uuid, Instant>)
      requires cat.Valid() && Legal(cat, rows)
      ensures this.cat == cat && this.rows == rows && this.lastSeen == lastSeen && lock.None?
      ensures Valid()
    {
      this.cat := cat;
      this.rows := rows;
      this.lastSeen := lastSeen;
      lock := None;
    }

    predicate Valid()
      reads this
    {
      cat.Valid() && Legal(cat, rows)
    }

    function Contents(): Db
      reads this
    {
      Db(rows, lastSeen)
    }

    /** What others may commit now: anything legal that leaves a locked sale's refunds alone. */
    predicate MayArrive(others: seq<Row>)
      reads this
    {
      Legal(cat, rows + others) && (lock.Some? ==> Frozen(rows, rows + others, lock.value))
    }

    method OthersCommit(others: seq<Row>)
      requires Valid() && MayArrive(others)
      modifies this`rows
      ensures Valid() && rows == old(rows) + others
    {
      rows := rows + others;
    }

    /** Codes and ids name each other: the returned id is the only one with this code. */
    method FindStore(code: string) returns (store: Outcome<Uuid>)
      requires Valid()
      ensures store.Ok? ==> store.value in cat.storeCodes && cat.storeCodes[store.value] == code
      ensures store.Raised? ==>
                store.error == UnknownStore && forall u | u in cat.storeCodes :: cat.storeCodes[u] != code
      ensures forall u | u in cat.storeCodes && cat.storeCodes[u] == code :: store == Ok(u)
    {
      store := if code in cat.storeIds then Ok(cat.storeIds[code]) else Raised(UnknownStore);
    }

    method FindProduct(sku: string) returns (product: Outcome<Uuid>)
      requires Valid()
      ensures product.Ok? ==> product.value in cat.productSkus && cat.productSkus[product.value] == sku
      ensures product.Raised? ==>
                product.error == UnknownProduct && forall u | u in cat.productSkus :: cat.productSkus[u] != sku
      ensures forall u | u in cat.productSkus && cat.productSkus[u] == sku :: product == Ok(u)
    {
      product := if sku in cat.productIds then Ok(cat.productIds[sku]) else Raised(UnknownProduct);
    }

    /** Store and product are given on the later paths and fetched from the row on the early one. */
    method ClassifyExisting(p: Payload, store: Option<Uuid>, product: Option<Uuid>) returns (v: Verdict)
      requires Valid() && Find(rows, p.eventId).Some?
      requires store.Some? ==> p.storeCode in cat.storeIds && cat.storeIds[p.storeCode] == store.value
      requires product.Some? ==> p.productSku in cat.productIds && cat.productIds[p.productSku] == product.value
      ensures v == ClassifyByCode(cat, Find(rows, p.eventId).value, p)
      ensures v.Duplicate? || v.EventConflict?
    {
      var existing := Find(rows, p.eventId).value;
      FoundIsSound(cat, rows, p.eventId);
      var storeMatches := if store.Some? then existing.storeId == store.value
                          else cat.storeCodes[existing.storeId] == p.storeCode;
      var productMatches := if product.Some? then existing.productId == product.value
                            else cat.productSkus[existing.productId] == p.productSku;
      var storeId := if store.Some? then store.value else existing.storeId;
      var productId := if product.Some? then product.value else existing.productId;
      if !(storeMatches && productMatches && MatchesPayload(existing, storeId, productId, p)) {
        return EventConflict;
      }
      v := Duplicate(existing.receivedAt);
    }

    method Rollback()
      modifies this`lock
      ensures lock.None?
    {
      lock := None;
    }

    method ClassifyAndRollback(p: Payload, store: Option<Uuid>, product: Option<Uuid>) returns (v: Verdict)
      requires Valid() && Find(rows, p.eventId).Some?
      requires store.Some? ==> p.storeCode in cat.storeIds && cat.storeIds[p.storeCode] == store.value
      requires product.Some? ==> p.productSku in cat.productIds && cat.productIds[p.productSku] == product.value
      modifies this`lock
      ensures lock.None? && v == Judge(cat, rows, p, 0) && !v.Accepted? && !v.InvalidOriginalSale?
      ensures forall now :: Judge(cat, rows, p, now) == v
    {
      v := ClassifyExisting(p, store, product);
      Rollback();
    }

    /** Returns the received_at of the inserted row, or nothing when the id is taken. */
    method InsertEvent(p: Payload, store: Uuid, product: Uuid, now: Instant) returns (receivedAt: Option<Instant>)
      modifies this`rows
      ensures Find(old(rows), p.eventId).Some? ==> receivedAt.None? && rows == old(rows)
      ensures Find(old(rows), p.eventId).None? ==>
                receivedAt == Some(now) && rows == old(rows) + [RowFor(p, store, product, now)]
    {
      if Find(rows, p.eventId).Some? {
        return None;
      }
      rows := rows + [RowFor(p, store, product, now)];
      receivedAt := Some(now);
    }

    /** Behind the insert of a payload that is acceptable on the rows before it, the commit completes
        the one sequential call. */
    method CommitAccepted(p: Payload, store: Uuid, receivedAt: Instant) returns (v: Verdict)
      requires cat.Knows(p) && cat.storeIds[p.storeCode] == store
      requires rows != [] && Last(rows) == RowFor(p, store, cat.productIds[p.productSku], receivedAt)
      requires Judge(cat, Init(rows), p, receivedAt).Accepted?
      modifies this`lastSeen, this`lock
      ensures (Contents(), v) == Ingest(cat, Db(Init(rows), old(lastSeen)), p, receivedAt)
      ensures v.Accepted? && lock.None?
    {
      assert rows == Init(rows) + [Last(rows)];
      lastSeen := lastSeen[store := receivedAt];
      lock := None;
      v := Accepted(receivedAt);
    }

    /** others: committed while the insert waits for its key. */
    method IngestSale(p: Payload, now: Instant, others: seq<Row>) returns (v: Verdict)
      requires Valid() && lock.None? && Legal(cat, rows + others) && p.Valid() && p.kind.Sale?
      modifies this
      ensures Valid() && lock.None?
      ensures
        || (Contents() == old(Contents()) && !v.Accepted? && v == Judge(cat, old(rows), p, now))
        || (Contents(), v) == Ingest(cat, Db(old(rows) + others, old(lastSeen)), p, now)
    {
      if Find(rows, p.eventId).Some? {
        v := ClassifyAndRollback(p, None, None);
        return;
      }
      var store := FindStore(p.storeCode);
      if store.Raised? { return store.error; }
      var product := FindProduct(p.productSku);
      if product.Raised? { return product.error; }
      OthersCommit(others);
      AcceptedExactly(cat, Contents(), p, now);
      ghost var db := Contents();
      var receivedAt := InsertEvent(p, store.value, product.value, now);
      if receivedAt.None? {
        v := ClassifyAndRollback(p, Some(store.value), Some(product.value));
        assert (Contents(), v) == Ingest(cat, db, p, now);
        return;
      }
      assert Init(rows) == db.rows;
      v := CommitAccepted(p, store.value, receivedAt.value);
    }

    /** A row that is found stays locked, also when it is not a sale. */
    method LockOriginalSale(id: Uuid) returns (original: Outcome<Row>)
      requires lock.None?
      modifies this`lock
      ensures lock == if Find(rows, id).Some? then Some(id) else None
      ensures original.Ok? ==> Find(rows, id) == Some(original.value) && original.value.IsSale()
      ensures original.Raised? ==> OriginalError(Find(rows, id)) == Some(original.error)
    {
      var found := Find(rows, id);
      if found.None? { return Raised(OriginalSaleNotFound); }
      lock := Some(id);
      if found.value.eventType != SALE || found.value.originalEventId.Some? {
        return Raised(InvalidOriginalSale);
      }
      original := Ok(found.value);
    }

    method ValidateRefundReference(original: Row, store: Uuid, product: Uuid, p: Payload)
      returns (error: Option<Verdict>)
      ensures error == RefundError(rows, original, store, product, p)
      ensures error.None? <==> original.storeId == store && original.productId == product && Fits(rows, original, p)
    {
      NoErrorMeansFits(rows, original, store, product, p);
      if original.storeId != store { return Some(StoreMismatch); }
      if original.productId != product { return Some(ProductMismatch); }
      var refundedQuantity := Refunded(rows, original.eventId, Quantity);
      var refundedAmount := Refunded(rows, original.eventId, Amount);
      if refundedQuantity + p.quantity > original.quantity { return Some(QuantityLimitExceeded); }
      if refundedAmount + p.amountCents > original.amountCents { return Some(AmountLimitExceeded); }
      error := None;
    }

    /** The end of a refund: the insert, and the commit or the lost key. */
    method InsertValidated(p: Payload, now: Instant, store: Uuid, product: Uuid, original: Row) returns (v: Verdict)
      requires Valid() && p.Valid() && p.kind.Refund? && cat.Resolves(p, store, product)
      requires Find(rows, p.kind.originalEventId) == Some(original) && original.IsSale()
      requires RefundError(rows, original, store, product, p).None?
      modifies this
      ensures Valid() && lock.None?
      ensures (Contents(), v) == Ingest(cat, old(Contents()), p, now)
      ensures v.Accepted? || (v == Judge(cat, old(rows), p, now) && !v.InvalidOriginalSale?)
    {
      ghost var before := Contents();
      AcceptedExactly(cat, before, p, now);
      var receivedAt := InsertEvent(p, store, product, now);
      if receivedAt.None? {
        v := ClassifyAndRollback(p, Some(store), Some(product));
        return;
      }
      assert Init(rows) == before.rows;
      v := CommitAccepted(p, store, receivedAt.value);
    }

    /** The part of a refund behind the lock.  Others commit before the re-check, before the sums are
        read and while the insert waits for its key; none of that refunds the locked sale. */
    method IngestLocked(p: Payload, now: Instant, store: Uuid, product: Uuid, original: Row,
                        beforeCheck: seq<Row>, beforeSums: seq<Row>, beforeInsert: seq<Row>) returns (v: Verdict)
      requires Valid() && p.Valid() && p.kind.Refund? && cat.Resolves(p, store, product)
      requires lock == Some(p.kind.originalEventId)
      requires Find(rows, p.kind.originalEventId) == Some(original) && original.IsSale()
      requires Later(cat, rows, rows + beforeCheck, lock.value)
      requires Later(cat, rows + beforeCheck, rows + beforeCheck + beforeSums, lock.value)
      requires Later(cat, rows + beforeCheck + beforeSums, rows + beforeCheck + beforeSums + beforeInsert, lock.value)
      modifies this
      ensures Valid() && lock.None?
      ensures
        var checked := old(rows) + beforeCheck;
        var inserted := checked + beforeSums + beforeInsert;
        || (v.Accepted? && (Contents(), v) == Ingest(cat, Db(inserted, old(lastSeen)), p, now))
        || (!v.Accepted? && lastSeen == old(lastSeen)
            && (v == Judge(cat, checked, p, now) || v == Judge(cat, inserted, p, now)))
      ensures !v.Accepted? ==> !v.InvalidOriginalSale? && rows <= old(rows) + beforeCheck + beforeSums + beforeInsert
    {
      ghost var saleId := p.kind.originalEventId;
      FoundIsSound(cat, rows, saleId);
      FindIsStable(cat, rows, rows + beforeCheck, saleId);
      OthersCommit(beforeCheck);
      if Find(rows, p.eventId).Some? {
        v := ClassifyAndRollback(p, Some(store), Some(product));
        return;
      }
      ghost var checked := rows;
      OthersCommit(beforeSums);
      var error := ValidateRefundReference(original, store, product, p);
      SameSumsSameError(checked, rows, original, store, product, p);
      if error.Some? {
        Rollback();
        return error.value;
      }
      SameSumsSameError(rows, rows + beforeInsert, original, store, product, p);
      FindIsStable(cat, checked, rows + beforeInsert, saleId);
      OthersCommit(beforeInsert);
      v := InsertValidated(p, now, store, product, original);
    }

    /** A refund, with others committing wherever they can: before the lock is granted, and then, as
        far as they do not refund the locked sale, between all later statements. */
    method IngestRefund(p: Payload, now: Instant, beforeLock: seq<Row>, beforeCheck: seq<Row>,
                        beforeSums: seq<Row>, beforeInsert: seq<Row>) returns (v: Verdict)
      requires Valid() && lock.None? && p.Valid() && p.kind.Refund?
      requires Legal(cat, rows + beforeLock)
      requires Later(cat, rows + beforeLock, rows + beforeLock + beforeCheck, p.kind.originalEventId)
      requires Later(cat, rows + beforeLock + beforeCheck,
                     rows + beforeLock + beforeCheck + beforeSums, p.kind.originalEventId)
      requires Later(cat, rows + beforeLock + beforeCheck + beforeSums,
                     rows + beforeLock + beforeCheck + beforeSums + beforeInsert, p.kind.originalEventId)
      modifies this
      ensures Valid() && lock.None?
      ensures
        var locked := old(rows) + beforeLock;
        var checked := locked + beforeCheck;
        var inserted := checked + beforeSums + beforeInsert;
        if v.Accepted? then (Contents(), v) == Ingest(cat, Db(inserted, old(lastSeen)), p, now)
        else
          && lastSeen == old(lastSeen) && rows <= inserted
          && if v.InvalidOriginalSale?
             then Find(locked, p.kind.originalEventId).Some? && !Find(locked, p.kind.originalEventId).value.IsSale()
             else || v == Judge(cat, old(rows), p, now)
                  || v == Judge(cat, checked, p, now)
                  || v == Judge(cat, inserted, p, now)
    {
      hide Frozen, Legal, ClassifyByCode, RefundError;
      if Find(rows, p.eventId).Some? {
        v := ClassifyAndRollback(p, None, None);
        return;
      }
      var store := FindStore(p.storeCode);
      if store.Raised? { return store.error; }
      var product := FindProduct(p.productSku);
      if product.Raised? { return product.error; }
      ghost var before := rows;
      OthersCommit(beforeLock);
      var original := LockOriginalSale(p.kind.originalEventId);
      if original.Raised? {
        if original.error.OriginalSaleNotFound? {
          AbsentBefore(cat, before, rows, p.kind.originalEventId);
        }
        Rollback();
        return original.error;
      }
      v := IngestLocked(p, now, store.value, product.value, original.value, beforeCheck, beforeSums, beforeInsert);
    }
  }
}
