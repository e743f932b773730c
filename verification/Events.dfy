/** The event table: payloads, stored rows, the verdicts a call can end with, and the
    sequential meaning of one ingestion call.  The table is a sequence of rows in commit
    order, so "committed earlier" is a position and a later table extends an earlier one. */
module Events {

  datatype Option<+T> = None | Some(value: T)

  type Uuid = nat
  type Instant = int
  type Metadata = map<string, string>

  datatype EventType = SALE | REFUND

  datatype Kind = Sale | Refund(originalEventId: Uuid)

  /** What a producer sends. */
  datatype Payload = Payload(
    eventId: Uuid,
    storeCode: string,
    productSku: string,
    kind: Kind,
    quantity: int,
    amountCents: int,
    occurredAt: Instant,
    sourceInstance: string,
    metadata: Option<Metadata>,
    note: Option<string>)
  {
    /** What the request schema guarantees before ingestion is called. */
    predicate Valid() {
      quantity > 0 && amountCents > 0
    }

    function Type(): EventType {
      if kind.Sale? then SALE else REFUND
    }

    function OriginalId(): Option<Uuid> {
      if kind.Sale? then None else Some(kind.originalEventId)
    }
  }

  /** What the table stores. */
  datatype Row = Row(
    eventId: Uuid,
    storeId: Uuid,
    productId: Uuid,
    eventType: EventType,
    quantity: int,
    amountCents: int,
    occurredAt: Instant,
    receivedAt: Instant,
    originalEventId: Option<Uuid>,
    sourceInstance: string,
    metadata: Option<Metadata>,
    note: Option<string>)
  {
    /** The CHECK constraints of the table. */
    predicate Checks() {
      && quantity > 0
      && amountCents > 0
      && (eventType.SALE? <==> originalEventId.None?)
      && originalEventId != Some(eventId)
    }

    /** A top-level sale, the only kind of row a refund may reference. */
    predicate IsSale() {
      eventType.SALE? && originalEventId.None?
    }
  }

  /** Quantity and money are limited independently, by the same rule. */
  datatype Measure = Quantity | Amount

  function RowSize(m: Measure, row: Row): int {
    if m.Quantity? then row.quantity else row.amountCents
  }

  function PayloadSize(m: Measure, p: Payload): int {
    if m.Quantity? then p.quantity else p.amountCents
  }

  /** Stores and products with their unique codes, in both directions. */
  datatype Catalog = Catalog(
    storeIds: map<string, Uuid>,
    storeCodes: map<Uuid, string>,
    productIds: map<string, Uuid>,
    productSkus: map<Uuid, string>)
  {
    predicate Valid() {
      && (forall c | c in storeIds :: storeIds[c] in storeCodes && storeCodes[storeIds[c]] == c)
      && (forall u | u in storeCodes :: storeCodes[u] in storeIds && storeIds[storeCodes[u]] == u)
      && (forall c | c in productIds :: productIds[c] in productSkus && productSkus[productIds[c]] == c)
      && (forall u | u in productSkus :: productSkus[u] in productIds && productIds[productSkus[u]] == u)
    }

    predicate Knows(p: Payload) {
      p.storeCode in storeIds && p.productSku in productIds
    }

    /** The ids a lookup by code returns. */
    predicate Resolves(p: Payload, storeId: Uuid, productId: Uuid) {
      Knows(p) && storeIds[p.storeCode] == storeId && productIds[p.productSku] == productId
    }
  }

  datatype Verdict =
    | Accepted(receivedAt: Instant)
    | Duplicate(receivedAt: Instant)
    | EventConflict
    | UnknownStore
    | UnknownProduct
    | OriginalSaleNotFound
    | InvalidOriginalSale
    | StoreMismatch
    | ProductMismatch
    | QuantityLimitExceeded
    | AmountLimitExceeded
    | InternalError   // a stored row that should be visible, or its store or product, is missing
    | Aborted         // ended from outside: rolled back, or committed without telling the caller

  /** The HTTP status the event endpoint answers with. */
  function HttpStatus(v: Verdict): nat {
    match v
    case Accepted(_) => 201
    case Duplicate(_) => 200
    case EventConflict => 409
    case UnknownStore => 404
    case UnknownProduct => 404
    case OriginalSaleNotFound => 404
    case InvalidOriginalSale => 422
    case StoreMismatch => 422
    case ProductMismatch => 422
    case QuantityLimitExceeded => 409
    case AmountLimitExceeded => 409
    case InternalError => 500
    case Aborted => 500
  }

  // ---------------------------------------------------------------- the table

  function Init<T>(s: seq<T>): seq<T>
    requires s != []
  {
    s[..|s| - 1]
  }

  function Last<T>(s: seq<T>): T
    requires s != []
  {
    s[|s| - 1]
  }

  function Find(rows: seq<Row>, id: Uuid): Option<Row> {
    if rows == [] then None
    else if Last(rows).eventId == id then Some(Last(rows))
    else Find(Init(rows), id)
  }

  predicate Refunds(row: Row, saleId: Uuid) {
    row.eventType.REFUND? && row.originalEventId == Some(saleId)
  }

  /** The summed refunds of one sale. */
  function Refunded(rows: seq<Row>, saleId: Uuid, m: Measure): int {
    if rows == [] then 0
    else Refunded(Init(rows), saleId, m) + if Refunds(Last(rows), saleId) then RowSize(m, Last(rows)) else 0
  }

  /** What must be true of a row when it is added behind rows. */
  predicate Admissible(cat: Catalog, rows: seq<Row>, row: Row) {
    && row.Checks()
    && row.storeId in cat.storeCodes
    && row.productId in cat.productSkus
    && Find(rows, row.eventId).None?
    && (row.eventType.REFUND? ==>
          var original := Find(rows, row.originalEventId.value);
          && original.Some?
          && original.value.IsSale()
          && original.value.storeId == row.storeId
          && original.value.productId == row.productId
          && forall m: Measure ::
               Refunded(rows, row.originalEventId.value, m) + RowSize(m, row) <= RowSize(m, original.value))
  }

  /** A table in which every row was admissible when it was committed. */
  predicate Legal(cat: Catalog, rows: seq<Row>) {
    rows == [] || (Legal(cat, Init(rows)) && Admissible(cat, Init(rows), Last(rows)))
  }

  lemma AppendRow(rows: seq<Row>, row: Row)
    ensures Init(rows + [row]) == rows && Last(rows + [row]) == row
    ensures forall id :: Find(rows + [row], id) == if row.eventId == id then Some(row) else Find(rows, id)
    ensures forall id, m ::
              Refunded(rows + [row], id, m)
              == Refunded(rows, id, m) + if Refunds(row, id) then RowSize(m, row) else 0
  {
    assert Init(rows + [row]) == rows;
  }

  lemma {:induction false} FindAt(rows: seq<Row>, i: nat)
    requires i < |rows|
    ensures Find(rows, rows[i].eventId).Some?
  {
    if i < |rows| - 1 {
      FindAt(Init(rows), i);
    }
  }

  lemma {:induction false} Found(rows: seq<Row>, id: Uuid) returns (i: nat)
    requires Find(rows, id).Some?
    ensures i < |rows| && rows[i] == Find(rows, id).value && rows[i].eventId == id
  {
    if Last(rows).eventId == id {
      i := |rows| - 1;
    } else {
      i := Found(Init(rows), id);
    }
  }

  /** A found row satisfies the CHECKs, its store and product exist, and if it is a refund
      the sale it references is in the table, with the same store and product. */
  lemma {:induction false} FoundIsSound(cat: Catalog, rows: seq<Row>, id: Uuid)
    requires Legal(cat, rows) && Find(rows, id).Some?
    ensures
      var row := Find(rows, id).value;
      && row.eventId == id && row.Checks()
      && row.storeId in cat.storeCodes && row.productId in cat.productSkus
      && (row.eventType.REFUND? ==>
            var original := Find(rows, row.originalEventId.value);
            && original.Some? && original.value.IsSale()
            && original.value.storeId == row.storeId && original.value.productId == row.productId)
  {
    if Last(rows).eventId != id {
      FoundIsSound(cat, Init(rows), id);
    }
  }

  /** Primary key: no id is stored twice. */
  lemma {:induction false} IdsAreUnique(cat: Catalog, rows: seq<Row>, i: nat, j: nat)
    requires Legal(cat, rows) && i < j < |rows|
    ensures rows[i].eventId != rows[j].eventId
  {
    if j == |rows| - 1 {
      FindAt(Init(rows), i);
    } else {
      IdsAreUnique(cat, Init(rows), i, j);
    }
  }

  /** The row with an id is the one the lookup finds. */
  lemma OriginalIsUnique(cat: Catalog, rows: seq<Row>, id: Uuid)
    requires Legal(cat, rows)
    ensures forall i | 0 <= i < |rows| && rows[i].eventId == id :: Find(rows, id) == Some(rows[i])
    ensures Find(rows, id).Some? ==> exists i | 0 <= i < |rows| :: rows[i] == Find(rows, id).value
  {
    if Find(rows, id).Some? {
      var k := Found(rows, id);
      forall i | 0 <= i < |rows| && rows[i].eventId == id ensures i == k {
        if i < k { IdsAreUnique(cat, rows, i, k); }
        if k < i { IdsAreUnique(cat, rows, k, i); }
      }
    } else {
      forall i | 0 <= i < |rows| ensures rows[i].eventId != id {
        FindAt(rows, i);
      }
    }
  }

  /** References have depth one and point backwards in commit order. */
  lemma {:induction false} RefundFollowsItsSale(cat: Catalog, rows: seq<Row>, i: nat) returns (j: nat)
    requires Legal(cat, rows) && i < |rows| && rows[i].eventType.REFUND?
    ensures j < i && rows[i].originalEventId == Some(rows[j].eventId)
    ensures rows[j].eventType.SALE? && rows[j].originalEventId.None?
    ensures rows[j].storeId == rows[i].storeId && rows[j].productId == rows[i].productId
  {
    if i == |rows| - 1 {
      j := Found(Init(rows), rows[i].originalEventId.value);
    } else {
      j := RefundFollowsItsSale(cat, Init(rows), i);
    }
  }

  lemma {:induction false} AbsentHasNoRefunds(cat: Catalog, rows: seq<Row>, id: Uuid, m: Measure)
    requires Legal(cat, rows) && Find(rows, id).None?
    ensures Refunded(rows, id, m) == 0
  {
    if rows != [] {
      AbsentHasNoRefunds(cat, Init(rows), id, m);
      assert !Refunds(Last(rows), id);
    }
  }

  lemma {:induction false} RefundedIsNatural(cat: Catalog, rows: seq<Row>, id: Uuid, m: Measure)
    requires Legal(cat, rows)
    ensures 0 <= Refunded(rows, id, m)
  {
    if rows != [] {
      RefundedIsNatural(cat, Init(rows), id, m);
    }
  }

  /** No sale is ever refunded beyond its quantity or, independently, its amount. */
  lemma {:induction false} RefundsStayWithinSale(cat: Catalog, rows: seq<Row>, id: Uuid, m: Measure)
    requires Legal(cat, rows) && Find(rows, id).Some? && Find(rows, id).value.IsSale()
    ensures 0 <= Refunded(rows, id, m) <= RowSize(m, Find(rows, id).value)
  {
    RefundedIsNatural(cat, rows, id, m);
    if Last(rows).eventId == id {
      AbsentHasNoRefunds(cat, Init(rows), id, m);
    } else {
      RefundsStayWithinSale(cat, Init(rows), id, m);
    }
  }

  /** A stored row is never replaced. */
  lemma {:induction false} FindIsStable(cat: Catalog, rows: seq<Row>, later: seq<Row>, id: Uuid)
    requires Legal(cat, later) && rows <= later && Find(rows, id).Some?
    ensures Find(later, id) == Find(rows, id)
  {
    if |rows| < |later| {
      assert rows <= Init(later);
      FindIsStable(cat, rows, Init(later), id);
    } else {
      assert rows == later;
    }
  }

  lemma AbsentBefore(cat: Catalog, rows: seq<Row>, later: seq<Row>, id: Uuid)
    requires Legal(cat, later) && rows <= later && Find(later, id).None?
    ensures Find(rows, id).None?
  {
    if Find(rows, id).Some? {
      FindIsStable(cat, rows, later, id);
    }
  }

  // ---------------------------------------------------------------- classification

  /** The row an accepted payload becomes. */
  function RowFor(p: Payload, storeId: Uuid, productId: Uuid, receivedAt: Instant): Row {
    Row(p.eventId, storeId, productId, p.Type(), p.quantity, p.amountCents, p.occurredAt, receivedAt,
        p.OriginalId(), p.sourceInstance, p.metadata, p.note)
  }

  predicate MatchesPayload(existing: Row, storeId: Uuid, productId: Uuid, p: Payload) {
    && existing.storeId == storeId
    && existing.productId == productId
    && existing.eventType == p.Type()
    && existing.quantity == p.quantity
    && existing.amountCents == p.amountCents
    && existing.occurredAt == p.occurredAt
    && existing.originalEventId == p.OriginalId()
    && existing.sourceInstance == p.sourceInstance
    && existing.metadata == p.metadata
    && existing.note == p.note
  }

  /** Classification on the early path, where the call has not looked up its store and product:
      the stored row's store and product are fetched and their codes compared. */
  function ClassifyByCode(cat: Catalog, existing: Row, p: Payload): Verdict {
    if existing.storeId !in cat.storeCodes then InternalError
    else if existing.productId !in cat.productSkus then InternalError
    else if && cat.storeCodes[existing.storeId] == p.storeCode
            && cat.productSkus[existing.productId] == p.productSku
            && MatchesPayload(existing, existing.storeId, existing.productId, p)
    then Duplicate(existing.receivedAt)
    else EventConflict
  }

  /** Classification after the lock or the insert, where ids are compared. */
  function ClassifyById(existing: Row, storeId: Uuid, productId: Uuid, p: Payload): Verdict {
    if && existing.storeId == storeId
       && existing.productId == productId
       && MatchesPayload(existing, storeId, productId, p)
    then Duplicate(existing.receivedAt)
    else EventConflict
  }

  /** Both comparisons agree on every row a legal table can hold, and "duplicate" means that
      the stored row is exactly the row this payload would have produced. */
  lemma ClassificationIsPathIndependent(cat: Catalog, existing: Row, p: Payload, storeId: Uuid, productId: Uuid)
    requires cat.Valid()
    requires existing.storeId in cat.storeCodes && existing.productId in cat.productSkus
    requires existing.eventId == p.eventId
    requires cat.Resolves(p, storeId, productId)
    ensures ClassifyByCode(cat, existing, p) == ClassifyById(existing, storeId, productId, p)
    ensures ClassifyByCode(cat, existing, p) ==
            if existing == RowFor(p, storeId, productId, existing.receivedAt)
            then Duplicate(existing.receivedAt) else EventConflict
  {
    assert cat.storeCodes[existing.storeId] == p.storeCode <==> existing.storeId == storeId;
    assert cat.productSkus[existing.productId] == p.productSku <==> existing.productId == productId;
  }

  // ---------------------------------------------------------------- one call, alone

  /** The outcome of looking for the original sale: it, or the error to raise. */
  function OriginalError(original: Option<Row>): Option<Verdict> {
    match original
    case None => Some(OriginalSaleNotFound)
    case Some(row) =>
      if !row.eventType.SALE? || row.originalEventId.Some? then Some(InvalidOriginalSale) else None
  }

  /** Reference and limit validation of a refund against its original sale. */
  function RefundError(rows: seq<Row>, original: Row, storeId: Uuid, productId: Uuid, p: Payload): Option<Verdict> {
    if original.storeId != storeId then Some(StoreMismatch)
    else if original.productId != productId then Some(ProductMismatch)
    else if Refunded(rows, original.eventId, Quantity) + p.quantity > original.quantity
    then Some(QuantityLimitExceeded)
    else if Refunded(rows, original.eventId, Amount) + p.amountCents > original.amountCents
    then Some(AmountLimitExceeded)
    else None
  }

  function Judge(cat: Catalog, rows: seq<Row>, p: Payload, now: Instant): Verdict {
    match Find(rows, p.eventId)
    case Some(existing) => ClassifyByCode(cat, existing, p)
    case None =>
      if p.storeCode !in cat.storeIds then UnknownStore
      else if p.productSku !in cat.productIds then UnknownProduct
      else if p.kind.Sale? then Accepted(now)
      else
        var original := Find(rows, p.kind.originalEventId);
        var missing := OriginalError(original);
        if missing.Some? then missing.value
        else
          var invalid := RefundError(
            rows, original.value, cat.storeIds[p.storeCode], cat.productIds[p.productSku], p);
          if invalid.Some? then invalid.value else Accepted(now)
  }

  /** The refund leaves both sums within the sale. */
  ghost predicate Fits(rows: seq<Row>, original: Row, p: Payload) {
    forall m: Measure :: Refunded(rows, original.eventId, m) + PayloadSize(m, p) <= RowSize(m, original)
  }

  lemma NoErrorMeansFits(rows: seq<Row>, original: Row, storeId: Uuid, productId: Uuid, p: Payload)
    ensures RefundError(rows, original, storeId, productId, p).None? <==>
            original.storeId == storeId && original.productId == productId && Fits(rows, original, p)
  {
    if original.storeId == storeId && original.productId == productId && Fits(rows, original, p) {
      assert Refunded(rows, original.eventId, Quantity) + PayloadSize(Quantity, p) <= RowSize(Quantity, original);
      assert Refunded(rows, original.eventId, Amount) + PayloadSize(Amount, p) <= RowSize(Amount, original);
    }
  }

  datatype Db = Db(rows: seq<Row>, lastSeen: map<Uuid, Instant>)

  function Commit(db: Db, p: Payload, storeId: Uuid, productId: Uuid, now: Instant): Db {
    Db(db.rows + [RowFor(p, storeId, productId, now)], db.lastSeen[storeId := now])
  }

  /** One ingestion call with nobody else running. */
  function Ingest(cat: Catalog, db: Db, p: Payload, now: Instant): (Db, Verdict) {
    var verdict := Judge(cat, db.rows, p, now);
    if verdict.Accepted? && cat.Knows(p)
    then (Commit(db, p, cat.storeIds[p.storeCode], cat.productIds[p.productSku], now), verdict)
    else (db, verdict)
  }

  /** When a call is accepted, stated on the rows themselves: a new id, a known store and product
      and, for a refund, a top-level sale of the same store and product with room left. */
  ghost predicate Acceptable(cat: Catalog, rows: seq<Row>, p: Payload) {
    && (forall i | 0 <= i < |rows| :: rows[i].eventId != p.eventId)
    && cat.Knows(p)
    && (p.kind.Refund? ==>
          exists i | 0 <= i < |rows| ::
            && rows[i].eventId == p.kind.originalEventId
            && rows[i].IsSale()
            && rows[i].storeId == cat.storeIds[p.storeCode]
            && rows[i].productId == cat.productIds[p.productSku]
            && Fits(rows, rows[i], p))
  }

  lemma AcceptedKeepsLimit(rows: seq<Row>, original: Row, row: Row, p: Payload)
    requires Fits(rows, original, p) && row.quantity == p.quantity && row.amountCents == p.amountCents
    ensures forall m: Measure ::
              Refunded(rows, original.eventId, m) + RowSize(m, row) <= RowSize(m, original)
  {
    forall m: Measure
      ensures Refunded(rows, original.eventId, m) + RowSize(m, row) <= RowSize(m, original)
    {
      assert RowSize(m, row) == PayloadSize(m, p);
    }
  }

  lemma AcceptedExactly(cat: Catalog, db: Db, p: Payload, now: Instant)
    requires cat.Valid() && Legal(cat, db.rows) && p.Valid()
    ensures Ingest(cat, db, p, now).1.Accepted? <==> Acceptable(cat, db.rows, p)
    ensures Legal(cat, Ingest(cat, db, p, now).0.rows)
    ensures !Ingest(cat, db, p, now).1.Accepted? ==> Ingest(cat, db, p, now).0 == db
    ensures !Ingest(cat, db, p, now).1.InternalError?
  {
    var rows := db.rows;
    if Find(rows, p.eventId).Some? {
      var i := Found(rows, p.eventId);
      FoundIsSound(cat, rows, p.eventId);
    } else {
      forall i | 0 <= i < |rows| ensures rows[i].eventId != p.eventId {
        FindAt(rows, i);
      }
      if cat.Knows(p) {
        if p.kind.Refund? {
          OriginalIsUnique(cat, rows, p.kind.originalEventId);
          var original := Find(rows, p.kind.originalEventId);
          if original.Some? {
            var i := Found(rows, p.kind.originalEventId);
            NoErrorMeansFits(rows, original.value, cat.storeIds[p.storeCode], cat.productIds[p.productSku], p);
            if Ingest(cat, db, p, now).1.Accepted? {
              assert rows[i].IsSale() && Fits(rows, rows[i], p);
              var row := RowFor(p, cat.storeIds[p.storeCode], cat.productIds[p.productSku], now);
              AcceptedKeepsLimit(rows, original.value, row, p);
            }
          }
        }
        AppendRow(rows, RowFor(p, cat.storeIds[p.storeCode], cat.productIds[p.productSku], now));
      }
    }
  }

  /** What an accepted call leaves: one more row, with the receipt's time, and the store of its code
      last seen at that time; every other store is as it was.  A call that is not accepted leaves
      every store as it was. */
  lemma AcceptedIsSeen(cat: Catalog, db: Db, p: Payload, now: Instant)
    requires cat.Valid() && Legal(cat, db.rows)
    ensures
      var (after, v) := Ingest(cat, db, p, now);
      if v.Accepted? then
        && p.storeCode in cat.storeIds
        && |after.rows| == |db.rows| + 1 && db.rows <= after.rows
        && after.rows[|db.rows|].eventId == p.eventId && after.rows[|db.rows|].receivedAt == v.receivedAt == now
        && after.lastSeen.Keys == db.lastSeen.Keys + {cat.storeIds[p.storeCode]}
        && (forall u | u in after.lastSeen ::
              after.lastSeen[u] == if u == cat.storeIds[p.storeCode] then v.receivedAt else db.lastSeen[u])
      else after.lastSeen == db.lastSeen
  {
    if Find(db.rows, p.eventId).Some? {
      FoundIsSound(cat, db.rows, p.eventId);
    }
  }

  // ---------------------------------------------------------------- every verdict, on the rows themselves

  predicate NewId(rows: seq<Row>, p: Payload) {
    forall i | 0 <= i < |rows| :: rows[i].eventId != p.eventId
  }

  /** The row is what this payload became when it was accepted. */
  predicate IsRecordOf(cat: Catalog, row: Row, p: Payload) {
    cat.Resolves(p, row.storeId, row.productId) && row == RowFor(p, row.storeId, row.productId, row.receivedAt)
  }

  predicate SameStore(cat: Catalog, p: Payload, row: Row) {
    p.storeCode in cat.storeIds && cat.storeIds[p.storeCode] == row.storeId
  }

  predicate SameProduct(cat: Catalog, p: Payload, row: Row) {
    p.productSku in cat.productIds && cat.productIds[p.productSku] == row.productId
  }

  predicate HasRoom(rows: seq<Row>, p: Payload, row: Row, m: Measure) {
    Refunded(rows, row.eventId, m) + PayloadSize(m, p) <= RowSize(m, row)
  }

  /** A known event id is a duplicate or a conflict before anything else is looked at. */
  lemma KnownIdVerdicts(cat: Catalog, rows: seq<Row>, p: Payload, now: Instant)
    requires cat.Valid() && Legal(cat, rows)
    ensures
      var v := Judge(cat, rows, p, now);
      && (v.Duplicate? <==> exists i | 0 <= i < |rows| :: rows[i].eventId == p.eventId && IsRecordOf(cat, rows[i], p))
      && (v.EventConflict? <==>
            exists i | 0 <= i < |rows| :: rows[i].eventId == p.eventId && !IsRecordOf(cat, rows[i], p))
      && (v.Duplicate? || v.EventConflict? <==> !NewId(rows, p))
      && (v.Duplicate? ==>
            forall i | 0 <= i < |rows| && rows[i].eventId == p.eventId :: v.receivedAt == rows[i].receivedAt)
  {
    OriginalIsUnique(cat, rows, p.eventId);
    if Find(rows, p.eventId).Some? {
      var i := Found(rows, p.eventId);
      FoundIsSound(cat, rows, p.eventId);
      assert cat.storeCodes[rows[i].storeId] == p.storeCode <==> SameStore(cat, p, rows[i]);
      assert cat.productSkus[rows[i].productId] == p.productSku <==> SameProduct(cat, p, rows[i]);
    } else {
      forall i | 0 <= i < |rows| ensures rows[i].eventId != p.eventId {
        FindAt(rows, i);
      }
    }
  }

  /** When the refusals that need no original row are given. */
  lemma MissingExactly(cat: Catalog, rows: seq<Row>, p: Payload, now: Instant)
    requires cat.Valid() && Legal(cat, rows)
    ensures
      var v := Judge(cat, rows, p, now);
      && (v.UnknownStore? <==> NewId(rows, p) && p.storeCode !in cat.storeIds)
      && (v.UnknownProduct? <==> NewId(rows, p) && p.storeCode in cat.storeIds && p.productSku !in cat.productIds)
      && (v.OriginalSaleNotFound? <==>
            && NewId(rows, p) && cat.Knows(p) && p.kind.Refund?
            && forall i | 0 <= i < |rows| :: rows[i].eventId != p.kind.originalEventId)
  {
    KnownIdVerdicts(cat, rows, p, now);
    if p.kind.Refund? {
      OriginalIsUnique(cat, rows, p.kind.originalEventId);
      if Find(rows, p.kind.originalEventId).Some? {
        var i := Found(rows, p.kind.originalEventId);
      } else {
        forall i | 0 <= i < |rows| ensures rows[i].eventId != p.kind.originalEventId {
          FindAt(rows, i);
        }
      }
    }
  }

  /** The row gives this reason to refuse the refund. */
  predicate Cause(cat: Catalog, rows: seq<Row>, p: Payload, row: Row, v: Verdict) {
    match v
    case InvalidOriginalSale => row.eventType.REFUND?
    case StoreMismatch => row.eventType.SALE? && !SameStore(cat, p, row)
    case ProductMismatch => row.eventType.SALE? && SameStore(cat, p, row) && !SameProduct(cat, p, row)
    case QuantityLimitExceeded =>
      && row.eventType.SALE? && SameStore(cat, p, row) && SameProduct(cat, p, row)
      && !HasRoom(rows, p, row, Quantity)
    case AmountLimitExceeded =>
      && row.eventType.SALE? && SameStore(cat, p, row) && SameProduct(cat, p, row)
      && HasRoom(rows, p, row, Quantity) && !HasRoom(rows, p, row, Amount)
    case _ => false
  }

  /** A new refund, of a known store and product, with an original row that gives this reason. */
  predicate OriginalCauses(cat: Catalog, rows: seq<Row>, p: Payload, v: Verdict) {
    && NewId(rows, p) && cat.Knows(p) && p.kind.Refund?
    && exists i | 0 <= i < |rows| :: rows[i].eventId == p.kind.originalEventId && Cause(cat, rows, p, rows[i], v)
  }

  lemma CauseIsJudged(cat: Catalog, rows: seq<Row>, p: Payload, now: Instant, v: Verdict)
    requires Find(rows, p.eventId).None? && cat.Knows(p) && p.kind.Refund?
    requires Find(rows, p.kind.originalEventId).Some?
    requires
      var row := Find(rows, p.kind.originalEventId).value;
      row.Checks() && row.eventId == p.kind.originalEventId
    requires v.InvalidOriginalSale? || v.StoreMismatch? || v.ProductMismatch?
             || v.QuantityLimitExceeded? || v.AmountLimitExceeded?
    ensures Judge(cat, rows, p, now) == v <==> Cause(cat, rows, p, Find(rows, p.kind.originalEventId).value, v)
  {
  }

  /** When each refusal that an original row causes is given, in the order in which the causes
      are examined. */
  lemma RefusalsExactly(cat: Catalog, rows: seq<Row>, p: Payload, now: Instant, v: Verdict)
    requires cat.Valid() && Legal(cat, rows)
    requires v.InvalidOriginalSale? || v.StoreMismatch? || v.ProductMismatch?
             || v.QuantityLimitExceeded? || v.AmountLimitExceeded?
    ensures Judge(cat, rows, p, now) == v <==> OriginalCauses(cat, rows, p, v)
  {
    hide Cause;
    KnownIdVerdicts(cat, rows, p, now);
    if NewId(rows, p) && cat.Knows(p) && p.kind.Refund? {
      var id := p.kind.originalEventId;
      OriginalIsUnique(cat, rows, id);
      if Find(rows, p.eventId).Some? {
        var j := Found(rows, p.eventId);
      }
      if Find(rows, id).Some? {
        var i := Found(rows, id);
        FoundIsSound(cat, rows, id);
        CauseIsJudged(cat, rows, p, now, v);
      } else {
        forall i | 0 <= i < |rows| ensures rows[i].eventId != id {
          FindAt(rows, i);
        }
      }
    }
  }
}
