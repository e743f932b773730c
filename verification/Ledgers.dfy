/** The producer: payload generation and the ledger of remaining refundable capacity. */
module Ledgers {
  import opened Events
  import opened Settings

  datatype ProductSpec = ProductSpec(sku: string, unitPriceCents: int)

  const PRODUCT_CATALOG: seq<ProductSpec> := [
    ProductSpec("COFFEE-001", 899),
    ProductSpec("TEA-001", 549),
    ProductSpec("MUG-001", 1299),
    ProductSpec("BOTTLE-001", 1899),
    ProductSpec("NOTE-001", 699),
    ProductSpec("PEN-001", 599),
    ProductSpec("BAG-001", 1499),
    ProductSpec("CABLE-001", 1299),
    ProductSpec("POWER-001", 2499),
    ProductSpec("SNACK-001", 249)
  ]

  datatype OutboundKind = SaleOut | RefundOut | DuplicateOut

  /** An event on its way; the ledger entry of a sale travels with it. */
  datatype Outbound<+R> = Outbound(
    payload: Payload,
    kind: OutboundKind,
    saleEntry: Option<R>,
    refundOriginalEventId: Option<Uuid>,
    reservedQuantity: int,
    reservedAmountCents: int,
    allowDeliberateDuplicate: bool)

  /** Everything random in one generated event. */
  datatype Draw = Draw(
    wantRefund: bool,
    eventId: Uuid,
    product: nat,
    saleQuantity: int,
    pick: Uuid,
    refundQuantity: int,
    late: Option<int>)

  // ---------------------------------------------------------------- the ledger as a value

  datatype Entry = Entry(
    productSku: string,
    unitPriceCents: int,
    occurredAt: Instant,
    remainingQuantity: int,
    remainingAmountCents: int)
  {
    predicate Refundable() {
      remainingQuantity > 0 && remainingAmountCents >= unitPriceCents
    }

    /** Money and quantity stay in step. */
    predicate Consistent() {
      unitPriceCents > 0 && remainingQuantity >= 0 && remainingAmountCents == unitPriceCents * remainingQuantity
    }
  }

  type Book = map<Uuid, Entry>

  function Reserved(book: Book, id: Uuid, quantity: int): Book
    requires id in book
  {
    var e := book[id];
    book[id := e.(remainingQuantity := e.remainingQuantity - quantity,
                  remainingAmountCents := e.remainingAmountCents - e.unitPriceCents * quantity)]
  }

  /** A second delivery of the same sale changes nothing. */
  function Committed(book: Book, id: Uuid, entry: Entry): Book {
    if id in book then book else book[id := entry]
  }

  function Restored(book: Book, id: Uuid, quantity: int, amount: int): Book {
    if id !in book then book
    else
      var e := book[id];
      book[id := e.(remainingQuantity := e.remainingQuantity + quantity,
                    remainingAmountCents := e.remainingAmountCents + amount)]
  }

  predicate HasRefundable(book: Book) {
    exists id | id in book :: book[id].Refundable()
  }

  function EventTime(now: Instant, late: Option<int>, notBefore: Option<Instant>): Instant {
    var at := if late.Some? then now - late.value else now;
    if notBefore.Some? && at < notBefore.value then notBefore.value else at
  }

  /** Event time is never before its lower bound, and is the generation time or earlier unless
      the bound lifts it. */
  lemma EventTimeBounds(now: Instant, late: Option<int>, notBefore: Option<Instant>)
    requires late.Some? ==> late.value >= 1
    ensures notBefore.Some? ==> EventTime(now, late, notBefore) >= notBefore.value
    ensures EventTime(now, late, notBefore) <= now || Some(EventTime(now, late, notBefore)) == notBefore
    ensures late.Some? && notBefore.None? ==> EventTime(now, late, notBefore) < now
  {
  }

  function MetadataFor(isLate: bool): Metadata {
    map["generator" := "storepulse-pos-v1", "late" := if isLate then "true" else "false"]
  }

  function SalePayload(cfg: Config, d: Draw, now: Instant): Payload
    requires d.product < |PRODUCT_CATALOG|
  {
    var spec := PRODUCT_CATALOG[d.product];
    Payload(d.eventId, cfg.storeCode, spec.sku, Sale, d.saleQuantity, spec.unitPriceCents * d.saleQuantity,
            EventTime(now, d.late, None), cfg.instanceLabel, Some(MetadataFor(d.late.Some?)), None)
  }

  function RefundPayload(cfg: Config, d: Draw, original: Entry, now: Instant): Payload {
    Payload(d.eventId, cfg.storeCode, original.productSku, Refund(d.pick), d.refundQuantity,
            original.unitPriceCents * d.refundQuantity,
            EventTime(now, d.late, Some(original.occurredAt)), cfg.instanceLabel,
            Some(MetadataFor(d.late.Some?)), None)
  }

  /** The entry a sale starts with. */
  function EntryFor(cfg: Config, d: Draw, now: Instant): Entry
    requires d.product < |PRODUCT_CATALOG|
  {
    var p := SalePayload(cfg, d, now);
    Entry(p.productSku, PRODUCT_CATALOG[d.product].unitPriceCents, p.occurredAt, p.quantity, p.amountCents)
  }

  /** What the random draws guarantee. */
  predicate DrawOk(cfg: Config, book: Book, d: Draw) {
    && d.product < |PRODUCT_CATALOG|
    && 1 <= d.saleQuantity <= cfg.maxQuantity
    && (d.late.Some? ==> 1 <= d.late.value <= cfg.maxLateSeconds)
    && (d.wantRefund && HasRefundable(book) ==>
          && d.pick in book && book[d.pick].Refundable()
          && 1 <= d.refundQuantity <= book[d.pick].remainingQuantity)
  }

  function SaleEvent<R>(p: Payload, entry: R): Outbound<R> {
    Outbound(p, SaleOut, Some(entry), None, 0, 0, true)
  }

  function RefundEvent<R>(p: Payload, saleId: Uuid): Outbound<R> {
    Outbound(p, RefundOut, None, Some(saleId), p.quantity, p.amountCents, true)
  }

  /** One generated event, and the ledger after its reservation. */
  function MakeEvent(cfg: Config, book: Book, d: Draw, now: Instant): (Outbound<Entry>, Book)
    requires DrawOk(cfg, book, d)
  {
    if d.wantRefund && HasRefundable(book)
    then (RefundEvent(RefundPayload(cfg, d, book[d.pick], now), d.pick), Reserved(book, d.pick, d.refundQuantity))
    else (SaleEvent(SalePayload(cfg, d, now), EntryFor(cfg, d, now)), book)
  }

  function CommitDelivery(book: Book, e: Outbound<Entry>): Book {
    if e.kind.SaleOut? && e.saleEntry.Some? then Committed(book, e.payload.eventId, e.saleEntry.value) else book
  }

  function RollbackDelivery(book: Book, e: Outbound<Entry>): Book {
    if !e.kind.RefundOut? || e.refundOriginalEventId.None? then book
    else Restored(book, e.refundOriginalEventId.value, e.reservedQuantity, e.reservedAmountCents)
  }

  /** The generated event as the draw decides it: a refund exactly when one is wanted and some sale has
      capacity for at least one unit; priced by the unit; dated when it was generated or as much
      earlier as the draw is late, but a refund not before its sale; and marked as late exactly when
      the draw is.  Only a refund changes the ledger, and only the remainders of its sale. */
  lemma EventIsAsDrawn(cfg: Config, book: Book, d: Draw, now: Instant)
    requires DrawOk(cfg, book, d)
    ensures
      var (e, after) := MakeEvent(cfg, book, d, now);
      var p, drawnAt := e.payload, if d.late.Some? then now - d.late.value else now;
      && p.eventId == d.eventId && p.storeCode == cfg.storeCode && p.sourceInstance == cfg.instanceLabel
      && p.note.None?
      && p.metadata == Some(map["generator" := "storepulse-pos-v1", "late" := if d.late.Some? then "true" else "false"])
      && (p.kind.Refund? <==>
            d.wantRefund && exists id | id in book ::
              book[id].remainingQuantity > 0 && book[id].remainingAmountCents >= book[id].unitPriceCents)
      && after.Keys == book.Keys
      && match p.kind
         case Sale =>
           && after == book
           && p.productSku == PRODUCT_CATALOG[d.product].sku && p.quantity == d.saleQuantity
           && p.amountCents == p.quantity * PRODUCT_CATALOG[d.product].unitPriceCents
           && p.occurredAt == drawnAt
         case Refund(id) =>
           && id == d.pick && id in book && p.quantity == d.refundQuantity
           && p.productSku == book[id].productSku && p.amountCents == p.quantity * book[id].unitPriceCents
           && (p.occurredAt == drawnAt || p.occurredAt == book[id].occurredAt)
           && p.occurredAt >= drawnAt && p.occurredAt >= book[id].occurredAt
           && after[id].remainingQuantity == book[id].remainingQuantity - p.quantity
           && after[id].remainingAmountCents == book[id].remainingAmountCents - p.amountCents
           && forall other | other in book && other != id :: after[other] == book[other]
  {
    if d.wantRefund {
      assert forall id | id in book ::
          book[id].Refundable() <==>
          book[id].remainingQuantity > 0 && book[id].remainingAmountCents >= book[id].unitPriceCents;
    }
  }

  /** Rolling a fresh refund back restores the ledger exactly. */
  lemma RollbackUndoesReservation(cfg: Config, book: Book, d: Draw, now: Instant)
    requires DrawOk(cfg, book, d) && d.wantRefund && HasRefundable(book)
    ensures
      var (e, after) := MakeEvent(cfg, book, d, now);
      && after != book
      && RollbackDelivery(after, e) == book
  {
    var (e, after) := MakeEvent(cfg, book, d, now);
    assert after[d.pick] != book[d.pick];
    assert RollbackDelivery(after, e)[d.pick] == book[d.pick];
  }

  /** Delivering a sale again, whatever was refunded in between, leaves its capacity alone. */
  lemma RepeatedCommitKeepsCapacity(cfg: Config, book: Book, e: Outbound<Entry>, d: Draw, now: Instant)
    requires e.kind.SaleOut? && e.saleEntry.Some?
    requires DrawOk(cfg, CommitDelivery(book, e), d)
    ensures
      var after := MakeEvent(cfg, CommitDelivery(book, e), d, now).1;
      CommitDelivery(after, e) == after
  {
    assert e.payload.eventId in CommitDelivery(book, e);
  }

  // ---------------------------------------------------------------- the ledger in place

  class SaleLedgerEntry {
    const eventId: Uuid
    const productSku: string
    const unitPriceCents: int
    const occurredAt: Instant
    var remainingQuantity: int
    var remainingAmountCents: int

    constructor (eventId: Uuid, entry: Entry)
      ensures this.eventId == eventId && Value() == entry
    {
      this.eventId := eventId;
      productSku := entry.productSku;
      unitPriceCents := entry.unitPriceCents;
      occurredAt := entry.occurredAt;
      remainingQuantity := entry.remainingQuantity;
      remainingAmountCents := entry.remainingAmountCents;
    }

    function Value(): Entry
      reads this
    {
      Entry(productSku, unitPriceCents, occurredAt, remainingQuantity, remainingAmountCents)
    }
  }

  class TrafficGenerator {
    const config: Config
    var sales: map<Uuid, SaleLedgerEntry>

    constructor (config: Config)
      ensures this.config == config && Valid() && Contents() == map[]
    {
      this.config := config;
      sales := map[];
    }

    /** Each entry is filed under its own id. */
    predicate Valid()
      reads this, sales.Values
    {
      forall id | id in sales :: sales[id].eventId == id
    }

    function Contents(): Book
      reads this, sales.Values
    {
      map id | id in sales :: sales[id].Value()
    }

    /** The event in the terms of the value ledger, with its entry as it is now. */
    function Seen(e: Outbound<SaleLedgerEntry>): Outbound<Entry>
      reads if e.saleEntry.Some? then {e.saleEntry.value} else {}
    {
      Outbound(e.payload, e.kind, if e.saleEntry.Some? then Some(e.saleEntry.value.Value()) else None,
               e.refundOriginalEventId, e.reservedQuantity, e.reservedAmountCents, e.allowDeliberateDuplicate)
    }

    method MakeSale(d: Draw, now: Instant) returns (e: Outbound<SaleLedgerEntry>)
      requires Valid() && DrawOk(config, Contents(), d)
      ensures e.saleEntry.Some? && fresh(e.saleEntry.value) && e.saleEntry.value.eventId == d.eventId
      ensures Seen(e) == SaleEvent(SalePayload(config, d, now), EntryFor(config, d, now))
    {
      var entry := new SaleLedgerEntry(d.eventId, EntryFor(config, d, now));
      e := SaleEvent(SalePayload(config, d, now), entry);
    }

    /** Two ids never share an entry. */
    lemma OnlyOneEntryChanges(id: Uuid)
      requires Valid() && id in sales
      ensures forall other | other in sales && other != id :: sales[other] != sales[id]
    {
    }

    method MakeRefund(d: Draw, now: Instant) returns (e: Option<Outbound<SaleLedgerEntry>>)
      requires Valid() && DrawOk(config, Contents(), d) && d.wantRefund
      modifies sales.Values
      ensures Valid() && sales == old(sales)
      ensures e.None? <==> !HasRefundable(old(Contents()))
      ensures e.None? ==> Contents() == old(Contents())
      ensures e.Some? ==>
                && e.value.saleEntry.None?
                && (Seen(e.value), Contents()) == MakeEvent(config, old(Contents()), d, now)
    {
      var candidates := set id | id in sales &&
                                 sales[id].remainingQuantity > 0 &&
                                 sales[id].remainingAmountCents >= sales[id].unitPriceCents;
      ghost var book := Contents();
      assert forall id | id in book :: id in candidates <==> book[id].Refundable();
      if candidates == {} {
        return None;
      }
      assert HasRefundable(book) by {
        var some :| some in candidates;
        assert book[some].Refundable();
      }
      var original := sales[d.pick];
      var payload := RefundPayload(config, d, original.Value(), now);
      OnlyOneEntryChanges(d.pick);
      original.remainingQuantity := original.remainingQuantity - d.refundQuantity;
      original.remainingAmountCents := original.remainingAmountCents - original.unitPriceCents * d.refundQuantity;
      e := Some(RefundEvent(payload, original.eventId));
      assert Contents() == Reserved(book, d.pick, d.refundQuantity) by {
        assert forall id | id in sales && id != d.pick :: sales[id].Value() == book[id];
      }
    }

    method MakeBusinessEvent(d: Draw, now: Instant) returns (e: Outbound<SaleLedgerEntry>)
      requires Valid() && DrawOk(config, Contents(), d)
      modifies sales.Values
      ensures Valid() && sales == old(sales)
      ensures (Seen(e), Contents()) == MakeEvent(config, old(Contents()), d, now)
      ensures e.saleEntry.Some? ==> fresh(e.saleEntry.value) && e.saleEntry.value.eventId == e.payload.eventId
    {
      if d.wantRefund {
        var refund := MakeRefund(d, now);
        if refund.Some? {
          return refund.value;
        }
      }
      e := MakeSale(d, now);
    }

    method Commit(e: Outbound<SaleLedgerEntry>)
      requires Valid() && (e.saleEntry.Some? ==> e.saleEntry.value.eventId == e.payload.eventId)
      modifies this`sales
      ensures Valid() && Contents() == CommitDelivery(old(Contents()), Seen(e))
      ensures forall id | id in old(sales) :: id in sales && sales[id] == old(sales)[id]
    {
      if e.kind.SaleOut? && e.saleEntry.Some? {
        if e.saleEntry.value.eventId !in sales {
          sales := sales[e.saleEntry.value.eventId := e.saleEntry.value];
        }
      }
    }

    method Rollback(e: Outbound<SaleLedgerEntry>)
      requires Valid()
      modifies sales.Values
      ensures Valid() && sales == old(sales)
      ensures Contents() == RollbackDelivery(old(Contents()), old(Seen(e)))
    {
      if !e.kind.RefundOut? || e.refundOriginalEventId.None? {
        return;
      }
      if e.refundOriginalEventId.value !in sales {
        return;
      }
      var original := sales[e.refundOriginalEventId.value];
      OnlyOneEntryChanges(e.refundOriginalEventId.value);
      original.remainingQuantity := original.remainingQuantity + e.reservedQuantity;
      original.remainingAmountCents := original.remainingAmountCents + e.reservedAmountCents;
    }

    /** A replay has the same payload and touches neither the ledger nor its own replay rule. */
    method MakeDuplicate(e: Outbound<SaleLedgerEntry>) returns (replay: Outbound<SaleLedgerEntry>)
      ensures replay.payload == e.payload && !replay.allowDeliberateDuplicate
      ensures CommitDelivery(Contents(), Seen(replay)) == Contents()
      ensures RollbackDelivery(Contents(), Seen(replay)) == Contents()
    {
      replay := Outbound(e.payload, DuplicateOut, None, None, 0, 0, false);
    }
  }
}
