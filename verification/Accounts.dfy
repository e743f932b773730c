/** The ledger over whole runs of the producer: what remains, what is under way and what is
    delivered always add up to what was sold. */
module Accounts {
  import opened Events
  import opened Settings
  import opened Ledgers
  import opened Producers

  function EntrySize(m: Measure, e: Entry): int {
    if m.Quantity? then e.remainingQuantity else e.remainingAmountCents
  }

  /** The size of a payload if it refunds this sale. */
  function RefundOf(id: Uuid, m: Measure): Payload -> int {
    (p: Payload) => if p.kind == Refund(id) then PayloadSize(m, p) else 0
  }

  /** This is a catalog product at its catalog price. */
  predicate Priced(sku: string, unitPriceCents: int) {
    exists k | 0 <= k < |PRODUCT_CATALOG| ::
      PRODUCT_CATALOG[k].sku == sku && PRODUCT_CATALOG[k].unitPriceCents == unitPriceCents
  }

  /** The amount is the catalog price of the product, times the quantity. */
  predicate PricedBy(g: Payload) {
    exists k | 0 <= k < |PRODUCT_CATALOG| ::
      PRODUCT_CATALOG[k].sku == g.productSku && g.amountCents == PRODUCT_CATALOG[k].unitPriceCents * g.quantity
  }

  /** A full entry for this sale. */
  predicate Opening(e: Entry, p: Payload) {
    && e.Consistent()
    && e.remainingQuantity == p.quantity && e.remainingAmountCents == p.amountCents
    && e.productSku == p.productSku && e.occurredAt == p.occurredAt
    && Priced(e.productSku, e.unitPriceCents)
  }

  predicate EventOk(p: Producer, e: Event) {
    && e.payload in p.generated
    && e.allowDeliberateDuplicate
    && match e.kind
       case SaleOut =>
         && e.payload.kind.Sale? && e.saleEntry.Some? && Opening(e.saleEntry.value, e.payload)
       case RefundOut =>
         && e.payload.kind.Refund? && e.saleEntry.None?
         && e.refundOriginalEventId == Some(e.payload.kind.originalEventId)
         && e.payload.kind.originalEventId in p.book
         && e.reservedQuantity == e.payload.quantity
         && e.reservedAmountCents == e.payload.amountCents
       case DuplicateOut => false
  }

  predicate PayloadOk(cfg: Config, p: Producer, g: Payload) {
    && g.Valid()
    && g.storeCode == cfg.storeCode
    && g.sourceInstance == cfg.instanceLabel
    && PricedBy(g)
    && (g.kind.Refund? ==>
          && g.kind.originalEventId in p.book
          && var original := p.book[g.kind.originalEventId];
          && g.productSku == original.productSku
          && g.occurredAt >= original.occurredAt
          && g.amountCents == original.unitPriceCents * g.quantity)
  }

  /** The entry is what is left of the sale after every refund that did not fail. */
  predicate Remains(p: Producer, id: Uuid, m: Measure, g: Payload)
    requires id in p.book
  {
    EntrySize(m, p.book[id]) + Total(RefundOf(id, m), p.generated) - Total(RefundOf(id, m), p.failed)
    == PayloadSize(m, g)
  }

  /** The i-th generated payload is the sale this entry stands for. */
  predicate Backs(p: Producer, id: Uuid, i: nat)
    requires id in p.book
  {
    && i < |p.generated|
    && var g := p.generated[i];
    && g.eventId == id && g.kind.Sale? && g in p.delivered
    && p.book[id].Consistent()
    && p.book[id].productSku == g.productSku
    && Priced(p.book[id].productSku, p.book[id].unitPriceCents)
    && p.book[id].occurredAt == g.occurredAt
    && Remains(p, id, Quantity, g)
    && Remains(p, id, Amount, g)
  }

  predicate IdsDiffer(ps: seq<Payload>) {
    forall i, j | 0 <= i < j < |ps| :: ps[i].eventId != ps[j].eventId
  }

  ghost predicate Sound(cfg: Config, p: Producer) {
    && IdsDiffer(p.generated)
    && (forall g | g in p.generated :: PayloadOk(cfg, p, g))
    && (forall g | g in p.delivered :: g in p.generated)
    && (forall g | g in p.failed :: g in p.generated)
    && (forall id | id in p.book :: exists i: nat :: Backs(p, id, i))
    && (forall e | e in p.queue :: EventOk(p, e))
    && (p.putting.Some? ==> EventOk(p, p.putting.value))
    && (forall i | 0 <= i < |p.workers| && !p.workers[i].Idle? :: EventOk(p, p.workers[i].event))
  }

  lemma {:induction false} NoRefundsNoTotal(ps: seq<Payload>, id: Uuid, m: Measure)
    requires forall g | g in ps :: g.kind != Refund(id)
    ensures Total(RefundOf(id, m), ps) == 0
  {
    if ps != [] {
      NoRefundsNoTotal(Init(ps), id, m);
    }
  }

  /** The later ledger files at least the same sales, on the same terms. */
  predicate SameTerms(book: Book, later: Book) {
    forall id | id in book ::
      && id in later
      && later[id].occurredAt == book[id].occurredAt
      && later[id].productSku == book[id].productSku
      && later[id].unitPriceCents == book[id].unitPriceCents
  }

  predicate Later(p: Producer, p': Producer) {
    SameTerms(p.book, p'.book) && forall g | g in p.generated :: g in p'.generated
  }

  lemma EventsKept(p: Producer, p': Producer)
    requires Later(p, p')
    ensures forall e: Event :: EventOk(p, e) ==> EventOk(p', e)
  {
  }

  lemma PayloadsKept(cfg: Config, p: Producer, p': Producer)
    requires Later(p, p')
    ensures forall g: Payload :: PayloadOk(cfg, p, g) ==> PayloadOk(cfg, p', g)
  {
  }

  /** The same entries over the same refunds. */
  lemma BackingKept(p: Producer, p': Producer)
    requires p'.generated == p.generated && p'.failed == p.failed
    requires forall id | id in p.book :: id in p'.book && p'.book[id] == p.book[id]
    requires forall g | g in p.delivered :: g in p'.delivered
    ensures forall id, i: nat | id in p.book && Backs(p, id, i) :: Backs(p', id, i)
  {
  }

  /** A step that leaves the book, the generated and the failed payloads alone, and only moves
      events that are already sound. */
  lemma SoundWhenOnlyMoved(cfg: Config, p: Producer, p': Producer)
    requires Sound(cfg, p)
    requires p'.book == p.book && p'.generated == p.generated && p'.failed == p.failed
    requires forall g | g in p.delivered :: g in p'.delivered
    requires forall g | g in p'.delivered :: g in p.generated
    requires forall e | e in p'.queue :: EventOk(p, e)
    requires p'.putting.Some? ==> EventOk(p, p'.putting.value)
    requires forall i | 0 <= i < |p'.workers| && !p'.workers[i].Idle? :: EventOk(p, p'.workers[i].event)
    ensures Sound(cfg, p')
  {
    hide Backs, EventOk, PayloadOk;
    BackingKept(p, p');
    EventsKept(p, p');
    PayloadsKept(cfg, p, p');
    forall id | id in p'.book ensures exists i: nat :: Backs(p', id, i) {
      var i: nat :| Backs(p, id, i);
      assert Backs(p', id, i);
    }
  }

  lemma PositiveProduct(a: int, b: int)
    requires a > 0 && b > 0
    ensures a * b > 0
  {
  }

  lemma TimesMinus(a: int, b: int, c: int)
    ensures a * (b - c) == a * b - a * c
  {
  }

  /** The state between generating an event and queueing it. */
  function Drawn(cfg: Config, p: Producer, d: Draw, now: Instant): Producer
    requires DrawOk(cfg, p.book, d)
  {
    var (e, book) := MakeEvent(cfg, p.book, d, now);
    p.(book := book, generated := p.generated + [e.payload])
  }

  lemma DrawnIsLater(cfg: Config, p: Producer, d: Draw, now: Instant)
    requires DrawOk(cfg, p.book, d)
    ensures Later(p, Drawn(cfg, p, d, now))
    ensures MakeEvent(cfg, p.book, d, now).0.payload in Drawn(cfg, p, d, now).generated
    ensures Drawn(cfg, p, d, now).book.Keys == p.book.Keys
  {
  }

  lemma DrawnRefundIsOk(cfg: Config, p: Producer, d: Draw, now: Instant)
    requires DrawOk(cfg, p.book, d) && d.wantRefund && HasRefundable(p.book)
    requires p.book[d.pick].Consistent()
    requires Priced(p.book[d.pick].productSku, p.book[d.pick].unitPriceCents)
    ensures PayloadOk(cfg, Drawn(cfg, p, d, now), MakeEvent(cfg, p.book, d, now).0.payload)
    ensures EventOk(Drawn(cfg, p, d, now), MakeEvent(cfg, p.book, d, now).0)
  {
    PositiveProduct(p.book[d.pick].unitPriceCents, d.refundQuantity);
    DrawnIsLater(cfg, p, d, now);
  }

  lemma DrawnSaleIsOk(cfg: Config, p: Producer, d: Draw, now: Instant)
    requires DrawOk(cfg, p.book, d) && !(d.wantRefund && HasRefundable(p.book))
    ensures PayloadOk(cfg, Drawn(cfg, p, d, now), MakeEvent(cfg, p.book, d, now).0.payload)
    ensures EventOk(Drawn(cfg, p, d, now), MakeEvent(cfg, p.book, d, now).0)
  {
    DrawnIsLater(cfg, p, d, now);
    assert SalePayload(cfg, d, now).productSku == PRODUCT_CATALOG[d.product].sku;
    assert PRODUCT_CATALOG[d.product].unitPriceCents > 0;
    PositiveProduct(PRODUCT_CATALOG[d.product].unitPriceCents, d.saleQuantity);
  }

  lemma SkuIsKnown(cfg: Config, p: Producer, id: Uuid)
    requires Sound(cfg, p) && id in p.book
    ensures p.book[id].Consistent()
    ensures Priced(p.book[id].productSku, p.book[id].unitPriceCents)
  {
    var i: nat :| Backs(p, id, i);
    assert PayloadOk(cfg, p, p.generated[i]);
  }

  lemma DrawnEventIsOk(cfg: Config, p: Producer, d: Draw, now: Instant)
    requires Sound(cfg, p) && DrawOk(cfg, p.book, d)
    ensures PayloadOk(cfg, Drawn(cfg, p, d, now), MakeEvent(cfg, p.book, d, now).0.payload)
    ensures EventOk(Drawn(cfg, p, d, now), MakeEvent(cfg, p.book, d, now).0)
  {
    if d.wantRefund && HasRefundable(p.book) {
      SkuIsKnown(cfg, p, d.pick);
      DrawnRefundIsOk(cfg, p, d, now);
    } else {
      DrawnSaleIsOk(cfg, p, d, now);
    }
  }

  lemma RemainsAfterDraw(cfg: Config, p: Producer, d: Draw, now: Instant, id: Uuid, m: Measure, g: Payload)
    requires DrawOk(cfg, p.book, d) && id in p.book && Remains(p, id, m, g)
    ensures id in Drawn(cfg, p, d, now).book && Remains(Drawn(cfg, p, d, now), id, m, g)
  {
    TotalAppend(RefundOf(id, m), p.generated, MakeEvent(cfg, p.book, d, now).0.payload);
  }

  lemma BackedAfterDraw(cfg: Config, p: Producer, d: Draw, now: Instant, id: Uuid, i: nat)
    requires DrawOk(cfg, p.book, d) && id in p.book && Backs(p, id, i)
    ensures id in Drawn(cfg, p, d, now).book && Backs(Drawn(cfg, p, d, now), id, i)
  {
    hide Remains;
    RemainsAfterDraw(cfg, p, d, now, id, Quantity, p.generated[i]);
    RemainsAfterDraw(cfg, p, d, now, id, Amount, p.generated[i]);
    if d.wantRefund && HasRefundable(p.book) && id == d.pick {
      TimesMinus(p.book[id].unitPriceCents, p.book[id].remainingQuantity, d.refundQuantity);
    }
  }

  lemma DrawnIsSound(cfg: Config, p: Producer, d: Draw, now: Instant)
    requires Sound(cfg, p) && DrawOk(cfg, p.book, d) && !UsedId(p, d.eventId)
    ensures Sound(cfg, Drawn(cfg, p, d, now))
  {
    hide Backs, EventOk, PayloadOk;
    var p' := Drawn(cfg, p, d, now);
    DrawnEventIsOk(cfg, p, d, now);
    DrawnIsLater(cfg, p, d, now);
    EventsKept(p, p');
    PayloadsKept(cfg, p, p');
    forall id | id in p'.book ensures exists i: nat :: Backs(p', id, i) {
      var i: nat :| Backs(p, id, i);
      BackedAfterDraw(cfg, p, d, now, id, i);
      assert Backs(p', id, i);
    }
  }

  lemma GenerateIsSound(cfg: Config, p: Producer, d: Draw, now: Instant)
    requires Sound(cfg, p) && Enabled(cfg, p, Generate(d, now))
    ensures Sound(cfg, Next(cfg, p, Generate(d, now)))
  {
    hide Backs, EventOk, PayloadOk, MakeEvent;
    DrawnIsSound(cfg, p, d, now);
    DrawnEventIsOk(cfg, p, d, now);
    SoundWhenOnlyMoved(cfg, Drawn(cfg, p, d, now), Next(cfg, p, Generate(d, now)));
  }

  /** No refund can be older than the filing of its sale. */
  lemma UnfiledHasNoRefunds(cfg: Config, p: Producer, id: Uuid, m: Measure)
    requires Sound(cfg, p) && id !in p.book
    ensures Total(RefundOf(id, m), p.generated) == 0 && Total(RefundOf(id, m), p.failed) == 0
  {
    forall g | g in p.generated ensures g.kind != Refund(id) {
      assert PayloadOk(cfg, p, g);
    }
    NoRefundsNoTotal(p.generated, id, m);
    NoRefundsNoTotal(p.failed, id, m);
  }

  lemma NewEntryIsBacked(cfg: Config, p: Producer, e: Event) returns (k: nat)
    requires Sound(cfg, p) && EventOk(p, e) && e.kind.SaleOut?
    requires e.payload.eventId !in p.book && e.payload in p.delivered
    ensures
      var p' := p.(book := CommitDelivery(p.book, e));
      e.payload.eventId in p'.book && Backs(p', e.payload.eventId, k)
  {
    UnfiledHasNoRefunds(cfg, p, e.payload.eventId, Quantity);
    UnfiledHasNoRefunds(cfg, p, e.payload.eventId, Amount);
    k :| k < |p.generated| && p.generated[k] == e.payload;
  }

  /** Filing a delivered sale. */
  lemma CommitIsSound(cfg: Config, p: Producer, e: Event)
    requires Sound(cfg, p) && EventOk(p, e) && e.kind.SaleOut?
    requires e.payload.eventId !in p.book && e.payload in p.delivered
    ensures Sound(cfg, p.(book := CommitDelivery(p.book, e)))
  {
    hide Backs, PayloadOk;
    var p', id := p.(book := CommitDelivery(p.book, e)), e.payload.eventId;
    var k := NewEntryIsBacked(cfg, p, e);
    hide EventOk;
    EventsKept(p, p');
    PayloadsKept(cfg, p, p');
    BackingKept(p, p');
    forall other | other in p'.book ensures exists i: nat :: Backs(p', other, i) {
      if other == id {
        assert Backs(p', id, k);
      } else {
        var i: nat :| Backs(p, other, i);
        assert Backs(p', other, i);
      }
    }
  }

  lemma DeliverIsSound(cfg: Config, p: Producer, w: nat, accepted: bool, replay: bool)
    requires Sound(cfg, p) && Enabled(cfg, p, Deliver(w, accepted, replay))
    ensures Sound(cfg, Next(cfg, p, Deliver(w, accepted, replay)))
  {
    hide Backs, PayloadOk, CountReceipt;
    var e := p.workers[w].event;
    var p' := Next(cfg, p, Deliver(w, accepted, replay));
    assert EventOk(p, e);
    var p1 := p.(delivered := p'.delivered, workers := p'.workers, unfinished := p'.unfinished, stats := p'.stats,
                 replayed := p'.replayed);
    SoundWhenOnlyMoved(cfg, p, p1);
    if e.kind.SaleOut? && e.payload.eventId !in p.book {
      CommitIsSound(cfg, p1, e);
    }
  }

  lemma RemainsAfterFail(cfg: Config, p: Producer, e: Event, id: Uuid, m: Measure, g: Payload)
    requires EventOk(p, e) && id in p.book && Remains(p, id, m, g)
    ensures
      var p' := p.(book := RollbackDelivery(p.book, e), failed := p.failed + [e.payload]);
      id in p'.book && Remains(p', id, m, g)
  {
    TotalAppend(RefundOf(id, m), p.failed, e.payload);
  }

  lemma RestoredKeepsTerms(book: Book, e: Event)
    ensures SameTerms(book, RollbackDelivery(book, e)) && RollbackDelivery(book, e).Keys == book.Keys
  {
  }

  lemma RestoredIsConsistent(cfg: Config, p: Producer, e: Event, id: Uuid)
    requires EventOk(p, e) && PayloadOk(cfg, p, e.payload) && id in p.book && p.book[id].Consistent()
    ensures id in RollbackDelivery(p.book, e)
    ensures SameTerms(p.book, RollbackDelivery(p.book, e))
    ensures RollbackDelivery(p.book, e)[id].Consistent()
  {
    if e.kind.RefundOut? && id == e.payload.kind.originalEventId {
      var entry := p.book[id];
      TimesMinus(entry.unitPriceCents, entry.remainingQuantity + e.payload.quantity, e.payload.quantity);
    }
  }

  lemma BackedAfterFail(cfg: Config, p: Producer, e: Event, id: Uuid, i: nat)
    requires EventOk(p, e) && PayloadOk(cfg, p, e.payload) && id in p.book && Backs(p, id, i)
    ensures
      var p' := p.(book := RollbackDelivery(p.book, e), failed := p.failed + [e.payload]);
      id in p'.book && Backs(p', id, i)
  {
    hide Remains, EventOk, PayloadOk;
    RemainsAfterFail(cfg, p, e, id, Quantity, p.generated[i]);
    RemainsAfterFail(cfg, p, e, id, Amount, p.generated[i]);
    RestoredIsConsistent(cfg, p, e, id);
  }

  lemma EventIsGenerated(cfg: Config, p: Producer, e: Event)
    requires Sound(cfg, p) && EventOk(p, e)
    ensures e.payload in p.generated && PayloadOk(cfg, p, e.payload)
  {
  }

  /** Rolling a failed event back. */
  lemma RollbackIsSound(cfg: Config, p: Producer, e: Event)
    requires Sound(cfg, p) && EventOk(p, e)
    ensures Sound(cfg, p.(book := RollbackDelivery(p.book, e), failed := p.failed + [e.payload]))
  {
    var p' := p.(book := RollbackDelivery(p.book, e), failed := p.failed + [e.payload]);
    hide Backs, PayloadOk, EventOk, RollbackDelivery;
    EventIsGenerated(cfg, p, e);
    RestoredKeepsTerms(p.book, e);
    assert Later(p, p');
    EventsKept(p, p');
    PayloadsKept(cfg, p, p');
    forall id | id in p'.book ensures exists i: nat :: Backs(p', id, i) {
      var i: nat :| Backs(p, id, i);
      BackedAfterFail(cfg, p, e, id, i);
      assert Backs(p', id, i);
    }
  }

  lemma FailIsSound(cfg: Config, p: Producer, w: nat)
    requires Sound(cfg, p) && Enabled(cfg, p, Fail(w))
    ensures Sound(cfg, Next(cfg, p, Fail(w)))
  {
    hide Backs, PayloadOk, EventOk;
    var e := p.workers[w].event;
    var p1 := p.(book := RollbackDelivery(p.book, e), failed := p.failed + [e.payload]);
    assert EventOk(p, e);
    RollbackIsSound(cfg, p, e);
    SoundWhenOnlyMoved(cfg, p1, Next(cfg, p, Fail(w)));
  }

  lemma NextIsSound(cfg: Config, p: Producer, m: Move)
    requires Sound(cfg, p) && Enabled(cfg, p, m)
    ensures Sound(cfg, Next(cfg, p, m))
  {
    hide Backs, PayloadOk, MakeEvent, CommitDelivery, RollbackDelivery, CountReceipt;
    match m
    case Generate(d, now) => GenerateIsSound(cfg, p, d, now);
    case ResumePut => SoundWhenOnlyMoved(cfg, p, Next(cfg, p, m));
    case Take(w) =>
      assert p.queue[0] in p.queue;
      SoundWhenOnlyMoved(cfg, p, Next(cfg, p, m));
    case Deliver(w, accepted, replay) => DeliverIsSound(cfg, p, w, accepted, replay);
    case Fail(w) => FailIsSound(cfg, p, w);
    case Send(w) => SoundWhenOnlyMoved(cfg, p, Next(cfg, p, m));
    case Retry(w) => SoundWhenOnlyMoved(cfg, p, Next(cfg, p, m));
    case ReplayDone(w, outcome) => SoundWhenOnlyMoved(cfg, p, Next(cfg, p, m));
  }

  lemma {:induction false} RunIsSound(cfg: Config, moves: seq<Move>)
    requires cfg.Valid()
    ensures Sound(cfg, Play(cfg, Started(cfg), moves))
  {
    if moves != [] {
      RunIsSound(cfg, Init(moves));
      var before := Play(cfg, Started(cfg), Init(moves));
      if Enabled(cfg, before, Last(moves)) {
        NextIsSound(cfg, before, Last(moves));
      }
    }
  }

  // ---------------------------------------------------------------- delivered sales are filed

  /** Every delivered sale is in the ledger, also when its receipt was a duplicate's. */
  predicate Filed(p: Producer) {
    forall g | g in p.delivered && g.kind.Sale? :: g.eventId in p.book
  }

  lemma NextIsFiled(cfg: Config, p: Producer, m: Move)
    requires Sound(cfg, p) && Filed(p) && Enabled(cfg, p, m)
    ensures Filed(Next(cfg, p, m))
  {
    hide Backs, PayloadOk, CountReceipt;
    match m
    case Generate(d, now) => DrawnIsLater(cfg, p, d, now);
    case Deliver(w, accepted, replay) => assert EventOk(p, p.workers[w].event);
    case Fail(w) => RestoredKeepsTerms(p.book, p.workers[w].event);
    case _ =>
  }

  lemma {:induction false} RunIsFiled(cfg: Config, moves: seq<Move>)
    requires cfg.Valid()
    ensures Filed(Play(cfg, Started(cfg), moves))
  {
    if moves != [] {
      hide Sound, Filed, Next, Enabled, Started;
      RunIsFiled(cfg, Init(moves));
      RunIsSound(cfg, Init(moves));
      var before := Play(cfg, Started(cfg), Init(moves));
      if Enabled(cfg, before, Last(moves)) {
        NextIsFiled(cfg, before, Last(moves));
      }
    }
  }

  // ---------------------------------------------------------------- the accounts

  /** What remains of a filed sale, the refunds of it under way and those delivered are what was
      sold; the remainders are non-negative and in step; no refund is dated before the sale. */
  predicate AddsUp(p: Producer, id: Uuid, m: Measure, i: nat)
    requires id in p.book
  {
    && i < |p.generated| && p.generated[i].eventId == id && p.generated[i].kind.Sale?
    && EntrySize(m, p.book[id]) + InTransit(RefundOf(id, m), p) + Total(RefundOf(id, m), p.delivered)
       == PayloadSize(m, p.generated[i])
    && p.book[id].Consistent()
    && forall g | g in p.generated && g.kind == Refund(id) :: g.occurredAt >= p.generated[i].occurredAt
  }

  lemma SoundLedgerAddsUp(cfg: Config, p: Producer, id: Uuid, m: Measure) returns (i: nat)
    requires Sound(cfg, p) && Balanced(RefundOf(id, m), p) && id in p.book
    ensures AddsUp(p, id, m, i)
  {
    hide EventOk, PricedBy, Priced;
    i :| Backs(p, id, i);
    forall g | g in p.generated && g.kind == Refund(id) ensures g.occurredAt >= p.generated[i].occurredAt {
      assert PayloadOk(cfg, p, g);
    }
  }

  /** Ledger conservation over every run, for every filed sale, in quantity and in money alike. */
  lemma LedgerIsConserved(cfg: Config, moves: seq<Move>, id: Uuid, m: Measure) returns (i: nat)
    requires cfg.Valid() && id in Play(cfg, Started(cfg), moves).book
    ensures AddsUp(Play(cfg, Started(cfg), moves), id, m, i)
  {
    RunIsSound(cfg, moves);
    RunConserves(RefundOf(id, m), cfg, moves);
    i := SoundLedgerAddsUp(cfg, Play(cfg, Started(cfg), moves), id, m);
  }
}
