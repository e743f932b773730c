/** What the producer and the backend guarantee together. */
module Agreement {
  import opened Events
  import opened Sessions
  import opened Refinement
  import opened Guarantees
  import opened Transport
  import opened Settings
  import opened Ledgers
  import opened Producers
  import opened Accounts
  import opened Delivery

  // ---------------------------------------------------------------- exactly once

  lemma SameIdSamePayload(ps: seq<Payload>, g: Payload, h: Payload)
    requires IdsDiffer(ps) && g in ps && h in ps && g.eventId == h.eventId
    ensures g == h
  {
    var i :| 0 <= i < |ps| && ps[i] == g;
    var j :| 0 <= j < |ps| && ps[j] == h;
    assert i == j;
  }

  /** A row under a generated id is the generated payload. */
  lemma GeneratedRowIsPayload(cat: Catalog, cfg: Config, w: World, g: Payload)
    requires Linked(cat, cfg, w) && g in w.producer.generated
    requires Find(w.backend.db.rows, g.eventId).Some?
    ensures Stored(cat, w.backend.db.rows, g)
  {
    hide Inv, OriginalsAreFound, EventOk, PayloadOk, Backs;
    var i := Found(w.backend.db.rows, g.eventId);
    assert UsedId(w.producer, g.eventId) by {
      var k :| 0 <= k < |w.producer.generated| && w.producer.generated[k] == g;
      assert w.producer.generated[k].eventId == g.eventId;
    }
    assert RowTouches(w.producer, w.backend.db.rows[i]);
    var h :| h in w.producer.generated && IsRecordOf(cat, w.backend.db.rows[i], h);
    SameIdSamePayload(w.producer.generated, g, h);
  }

  lemma HandledMove(cfg: Config, p: Producer, worker: nat, reaction: Reaction, replay: bool) returns (m: Option<Move>)
    ensures Handle(cfg, p, worker, reaction, replay) == if m.Some? then MoveIf(cfg, p, m.value) else p
  {
    hide Next, Enabled;
    m := if IsOpen(p, worker) then Some(Reply(cfg, p, worker, reaction, replay)) else None;
  }

  lemma MoveOf(cat: Catalog, cfg: Config, w: World, h: Happening) returns (m: Option<Move>)
    ensures Happens(cat, cfg, w, h).producer == if m.Some? then MoveIf(cfg, w.producer, m.value) else w.producer
  {
    hide Step, Next, Enabled, FreshId;
    m := None;
    match h
    case Produce(d, now) =>
      if FreshId(w, d.eventId) {
        m := Some(Generate(d, now));
      }
    case Unblock => m := Some(ResumePut);
    case Fetch(worker) => m := Some(Take(worker));
    case Post(worker) => m := Some(Send(worker));
    case Lost(worker) => m := HandledMove(cfg, w.producer, worker, React(TransportFailure), false);
    case Respond(worker, i, replay) =>
      if Answers(w, i, worker) {
        m := HandledMove(cfg, w.producer, worker, React(Answer(w.backend.sessions[i].pc.verdict)), replay);
      }
    case _ =>
  }

  /** The producer's part of every history is a run of the runtime alone. */
  lemma {:induction false} ProducerPlays(cat: Catalog, cfg: Config, db: Db, hs: seq<Happening>)
    returns (moves: seq<Move>)
    requires cfg.Valid()
    ensures History(cat, cfg, db, hs).producer == Play(cfg, Started(cfg), moves)
  {
    if hs == [] {
      moves := [];
    } else {
      hide Step, Next, Enabled, Started;
      var before := ProducerPlays(cat, cfg, db, Init(hs));
      var m := MoveOf(cat, cfg, History(cat, cfg, db, Init(hs)), Last(hs));
      if m.Some? {
        moves := before + [m.value];
        assert Init(moves) == before;
      } else {
        moves := before;
      }
    }
  }

  lemma OneRow(cat: Catalog, cfg: Config, w: World, g: Payload, i: nat)
    requires Linked(cat, cfg, w) && g in w.producer.generated
    requires i < |w.backend.db.rows| && w.backend.db.rows[i].eventId == g.eventId
    ensures IsRecordOf(cat, w.backend.db.rows[i], g)
  {
    hide Sound, SessionsAreOurs, RowsAreOurs, OriginalsAreFound;
    FindAt(w.backend.db.rows, i);
    GeneratedRowIsPayload(cat, cfg, w, g);
    InvIsLegal(cat, w.backend);
    OriginalIsUnique(cat, w.backend.db.rows, g.eventId);
  }

  lemma DeliveredRow(cat: Catalog, cfg: Config, w: World, g: Payload) returns (i: nat)
    requires Linked(cat, cfg, w) && g in w.producer.delivered
    ensures i < |w.backend.db.rows| && w.backend.db.rows[i].eventId == g.eventId
    ensures IsRecordOf(cat, w.backend.db.rows[i], g)
  {
    hide SessionsAreOurs, RowsAreOurs, OriginalsAreFound;
    assert g in w.producer.generated && Stored(cat, w.backend.db.rows, g);
    i := Found(w.backend.db.rows, g.eventId);
    OneRow(cat, cfg, w, g, i);
  }

  lemma ReceiptsAddUp(cat: Catalog, cfg: Config, db: Db, hs: seq<Happening>)
    requires cfg.Valid()
    ensures
      var w := History(cat, cfg, db, hs);
      var s := w.producer.stats;
      s.deliveredAccepted + s.deliveredDuplicate == |w.producer.delivered| + s.deliberateDuplicates
  {
    var moves := ProducerPlays(cat, cfg, db, hs);
    var p := Play(cfg, Started(cfg), moves);
    RunConserves(One(), cfg, moves);
    OneCounts(p.generated);
    OneCounts(p.delivered);
    OneCounts(p.failed);
  }

  lemma OneAcceptance(cat: Catalog, s: State)
    requires Inv(cat, s)
    ensures forall i: nat, j: nat | AcceptedHere(s, i) && AcceptedHere(s, j)
                          && s.sessions[i].payload.eventId == s.sessions[j].payload.eventId :: i == j
  {
    hide Inv;
    forall i: nat, j: nat | AcceptedHere(s, i) && AcceptedHere(s, j)
                  && s.sessions[i].payload.eventId == s.sessions[j].payload.eventId
      ensures i == j
    {
      if i != j {
        AreApart(cat, s, i, j);
      }
    }
  }

  /** Exactly once, for every schedule of retries, replays, lost and repeated messages and
      exhausted retries: a generated event has at most one row and that row is its payload; every
      event counted as delivered has its row; the receipt counters count exactly the delivered
      events and the replays; and no more than one accepted receipt exists for an event. */
  lemma ExactlyOnce(cat: Catalog, cfg: Config, db: Db, hs: seq<Happening>)
    requires cfg.Valid() && cat.Valid() && Legal(cat, db.rows) && Stocked(cat, cfg)
    ensures
      var w := History(cat, cfg, db, hs);
      var rows, s := w.backend.db.rows, w.producer.stats;
      && (forall g, i, j | g in w.producer.generated && 0 <= i < |rows| && 0 <= j < |rows|
                           && rows[i].eventId == g.eventId && rows[j].eventId == g.eventId ::
            i == j && IsRecordOf(cat, rows[i], g))
      && (forall g | g in w.producer.delivered ::
            exists i :: 0 <= i < |rows| && rows[i].eventId == g.eventId && IsRecordOf(cat, rows[i], g))
      && s.deliveredAccepted + s.deliveredDuplicate == |w.producer.delivered| + s.deliberateDuplicates
      && (forall i: nat, j: nat | AcceptedHere(w.backend, i) && AcceptedHere(w.backend, j)
                        && w.backend.sessions[i].payload.eventId == w.backend.sessions[j].payload.eventId :: i == j)
  {
    var w := History(cat, cfg, db, hs);
    var rows := w.backend.db.rows;
    HistoryIsLinked(cat, cfg, db, hs);
    InvIsLegal(cat, w.backend);
    forall g, i, j | g in w.producer.generated && 0 <= i < |rows| && 0 <= j < |rows|
                     && rows[i].eventId == g.eventId && rows[j].eventId == g.eventId
      ensures i == j && IsRecordOf(cat, rows[i], g)
    {
      OneRow(cat, cfg, w, g, i);
      OneRow(cat, cfg, w, g, j);
      if i < j { IdsAreUnique(cat, rows, i, j); }
      if j < i { IdsAreUnique(cat, rows, j, i); }
    }
    forall g | g in w.producer.delivered
      ensures exists i :: 0 <= i < |rows| && rows[i].eventId == g.eventId && IsRecordOf(cat, rows[i], g)
    {
      var i := DeliveredRow(cat, cfg, w, g);
    }
    ReceiptsAddUp(cat, cfg, db, hs);
    OneAcceptance(cat, w.backend);
  }

  // ---------------------------------------------------------------- the ledger against the table

  predicate ValidPayloads(ps: seq<Payload>) {
    forall g | g in ps :: g.Valid()
  }

  lemma {:induction false} TotalIsNatural(ps: seq<Payload>, id: Uuid, m: Measure)
    requires ValidPayloads(ps)
    ensures 0 <= Total(RefundOf(id, m), ps)
  {
    if ps != [] {
      assert Last(ps) in ps && forall g | g in Init(ps) :: g in ps;
      TotalIsNatural(Init(ps), id, m);
    }
  }

  /** Every stored refund of this sale is one of these payloads. */
  ghost predicate RefundsAmong(cat: Catalog, rows: seq<Row>, id: Uuid, ps: seq<Payload>) {
    forall i | 0 <= i < |rows| && Refunds(rows[i], id) :: exists g :: g in ps && IsRecordOf(cat, rows[i], g)
  }

  function Without(ps: seq<Payload>, k: nat): seq<Payload>
    requires k < |ps|
  {
    ps[..k] + ps[k + 1..]
  }

  lemma WithoutIsFine(ps: seq<Payload>, k: nat)
    requires k < |ps| && IdsDiffer(ps) && ValidPayloads(ps)
    ensures IdsDiffer(Without(ps, k)) && ValidPayloads(Without(ps, k))
    ensures forall g | g in ps && g != ps[k] :: g in Without(ps, k)
  {
    var rest := Without(ps, k);
    forall i | 0 <= i < |rest| ensures rest[i] == ps[if i < k then i else i + 1] {
    }
    forall g | g in ps && g != ps[k] ensures g in rest {
      var i :| 0 <= i < |ps| && ps[i] == g;
      assert rest[if i < k then i else i - 1] == g;
    }
  }

  /** Committed refunds of a sale never exceed the refunds they come from: distinct rows come from
      distinct payloads of the same size. */
  lemma {:induction false} CommittedAreAmong(cat: Catalog, rows: seq<Row>, id: Uuid, ps: seq<Payload>, m: Measure)
    requires Legal(cat, rows) && IdsDiffer(ps) && ValidPayloads(ps) && RefundsAmong(cat, rows, id, ps)
    ensures Refunded(rows, id, m) <= Total(RefundOf(id, m), ps)
  {
    TotalIsNatural(ps, id, m);
    if rows != [] {
      assert forall i | 0 <= i < |Init(rows)| :: Init(rows)[i] == rows[i];
      if Refunds(Last(rows), id) {
        assert Refunds(rows[|rows| - 1], id);
        var g :| g in ps && IsRecordOf(cat, Last(rows), g);
        var k :| 0 <= k < |ps| && ps[k] == g;
        WithoutIsFine(ps, k);
        TotalRemoved(RefundOf(id, m), ps, k);
        forall i | 0 <= i < |Init(rows)| && Refunds(Init(rows)[i], id)
          ensures exists h :: h in Without(ps, k) && IsRecordOf(cat, Init(rows)[i], h)
        {
          var h :| h in ps && IsRecordOf(cat, rows[i], h);
          IdsAreUnique(cat, rows, i, |rows| - 1);
          assert h != g;
        }
        CommittedAreAmong(cat, Init(rows), id, Without(ps, k), m);
        assert RefundOf(id, m)(g) == RowSize(m, Last(rows));
      } else {
        CommittedAreAmong(cat, Init(rows), id, ps, m);
      }
    }
  }

  lemma RefundsComeFromProducer(cat: Catalog, cfg: Config, w: World, id: Uuid)
    requires Linked(cat, cfg, w) && id in w.producer.book
    ensures RefundsAmong(cat, w.backend.db.rows, id, w.producer.generated)
    ensures IdsDiffer(w.producer.generated) && ValidPayloads(w.producer.generated)
  {
    hide Inv, OriginalsAreFound, EventOk, IsRecordOf;
    var i: nat :| Backs(w.producer, id, i);
    assert UsedId(w.producer, id);
    forall k | 0 <= k < |w.backend.db.rows| && Refunds(w.backend.db.rows[k], id)
      ensures exists g :: g in w.producer.generated && IsRecordOf(cat, w.backend.db.rows[k], g)
    {
      assert RowTouches(w.producer, w.backend.db.rows[k]);
    }
    forall g | g in w.producer.generated ensures g.Valid() {
      assert PayloadOk(cfg, w.producer, g);
    }
  }

  /** The sale behind a ledger entry, as stored. */
  lemma FiledSaleIsStored(cat: Catalog, cfg: Config, w: World, id: Uuid) returns (i: nat)
    requires Linked(cat, cfg, w) && id in w.producer.book
    ensures Backs(w.producer, id, i) && w.producer.generated[i] in w.producer.generated
    ensures Stored(cat, w.backend.db.rows, w.producer.generated[i])
  {
    hide Inv, OriginalsAreFound, EventOk, RowsAreOurs, SessionsAreOurs;
    i :| Backs(w.producer, id, i);
  }

  /** The ledger entry is within what the backend will still refund of this sale. */
  predicate WithinBackend(w: World, id: Uuid, m: Measure)
    requires id in w.producer.book
  {
    && Find(w.backend.db.rows, id).Some?
    && EntrySize(m, w.producer.book[id])
       <= RowSize(m, Find(w.backend.db.rows, id).value) - Refunded(w.backend.db.rows, id, m)
  }

  /** For any retry limit: the ledger agrees with the backend exactly as long as the committed
      refunds of the sale do not outweigh the generated refunds that were not rolled back. */
  lemma LedgerAgreesExactly(cat: Catalog, cfg: Config, w: World, id: Uuid, m: Measure)
    requires Linked(cat, cfg, w) && id in w.producer.book
    ensures Find(w.backend.db.rows, id).Some? && Find(w.backend.db.rows, id).value.IsSale()
    ensures
      WithinBackend(w, id, m) <==>
      Refunded(w.backend.db.rows, id, m)
      <= Total(RefundOf(id, m), w.producer.generated) - Total(RefundOf(id, m), w.producer.failed)
  {
    hide Linked;
    var i := FiledSaleIsStored(cat, cfg, w, id);
    assert RowSize(m, Find(w.backend.db.rows, id).value) == PayloadSize(m, w.producer.generated[i]);
    assert Remains(w.producer, id, m, w.producer.generated[i]);
  }

  lemma WorldIsLegal(cat: Catalog, cfg: Config, w: World)
    requires Linked(cat, cfg, w)
    ensures cat.Valid() && Legal(cat, w.backend.db.rows) && Inv(cat, w.backend) && Sound(cfg, w.producer)
  {
  }

  /** Nothing rolled back: each ledger entry stays within what the backend will still allow. */
  lemma LedgerNeverOverstates(cat: Catalog, cfg: Config, w: World, id: Uuid, m: Measure)
    requires Linked(cat, cfg, w) && id in w.producer.book && w.producer.failed == []
    ensures WithinBackend(w, id, m)
  {
    hide Linked;
    LedgerAgreesExactly(cat, cfg, w, id, m);
    RefundsComeFromProducer(cat, cfg, w, id);
    WorldIsLegal(cat, cfg, w);
    CommittedAreAmong(cat, w.backend.db.rows, id, w.producer.generated, m);
  }

  lemma FiledUnder(cat: Catalog, cfg: Config, w: World, g: Payload)
    requires Linked(cat, cfg, w) && g in w.producer.generated && g.kind.Refund?
    ensures g.kind.originalEventId in w.producer.book && PayloadOk(cfg, w.producer, g)
  {
  }

  lemma EntryIsNatural(p: Producer, id: Uuid, i: nat, m: Measure)
    requires id in p.book && Backs(p, id, i)
    ensures EntrySize(m, p.book[id]) >= 0
  {
    var e := p.book[id];
    if e.remainingQuantity > 0 {
      PositiveProduct(e.unitPriceCents, e.remainingQuantity);
    }
  }

  lemma TotalWithout(w: Payload -> int, ps: seq<Payload>, k: nat)
    requires k < |ps|
    ensures Total(w, ps) == w(ps[k]) + Total(w, Without(ps, k))
  {
    TotalRemoved(w, ps, k);
  }

  /** The stored refunds of a sale come from the other payloads. */
  lemma OthersAreStored(cat: Catalog, rows: seq<Row>, id: Uuid, ps: seq<Payload>, g: Payload) returns (k: nat)
    requires IdsDiffer(ps) && ValidPayloads(ps) && RefundsAmong(cat, rows, id, ps)
    requires g in ps && Find(rows, g.eventId).None?
    ensures k < |ps| && ps[k] == g
    ensures IdsDiffer(Without(ps, k)) && ValidPayloads(Without(ps, k)) && RefundsAmong(cat, rows, id, Without(ps, k))
  {
    k :| 0 <= k < |ps| && ps[k] == g;
    WithoutIsFine(ps, k);
    forall j | 0 <= j < |rows| && Refunds(rows[j], id)
      ensures exists h :: h in Without(ps, k) && IsRecordOf(cat, rows[j], h)
    {
      var h :| h in ps && IsRecordOf(cat, rows[j], h);
      FindAt(rows, j);
      assert h != g;
    }
  }

  /** A generated refund that is not stored yet always still fits. */
  lemma GeneratedRefundFits(cat: Catalog, cfg: Config, w: World, g: Payload, m: Measure)
    requires Linked(cat, cfg, w) && w.producer.failed == []
    requires g in w.producer.generated && g.kind.Refund? && Find(w.backend.db.rows, g.eventId).None?
    ensures
      var sale := Find(w.backend.db.rows, g.kind.originalEventId);
      && sale.Some?
      && Refunded(w.backend.db.rows, g.kind.originalEventId, m) + PayloadSize(m, g) <= RowSize(m, sale.value)
  {
    hide Linked, PayloadOk, RefundsAmong, IdsDiffer, ValidPayloads, Inv, Sound, Legal, Without;
    var id, rows, ps := g.kind.originalEventId, w.backend.db.rows, w.producer.generated;
    WorldIsLegal(cat, cfg, w);
    FiledUnder(cat, cfg, w, g);
    var i := FiledSaleIsStored(cat, cfg, w, id);
    RefundsComeFromProducer(cat, cfg, w, id);
    var k := OthersAreStored(cat, rows, id, ps, g);
    TotalWithout(RefundOf(id, m), ps, k);
    CommittedAreAmong(cat, rows, id, Without(ps, k), m);
    EntryIsNatural(w.producer, id, i, m);
    assert Remains(w.producer, id, m, w.producer.generated[i]);
    assert RowSize(m, Find(rows, id).value) == PayloadSize(m, w.producer.generated[i]);
  }

  // ---------------------------------------------------------------- no refusal

  lemma OriginalWasFound(cat: Catalog, cfg: Config, w: World, i: nat)
    requires Linked(cat, cfg, w)
    requires Decided(w.backend, i) && w.backend.sessions[i].payload in w.producer.generated
    ensures !w.backend.sessions[i].pc.verdict.OriginalSaleNotFound?
  {
  }

  /** While nothing was rolled back, every verdict on a generated event is a receipt, unless its
      transaction was aborted. */
  lemma OwnVerdictsAreReceipts(cat: Catalog, cfg: Config, w: World, i: nat)
    requires Linked(cat, cfg, w) && Stocked(cat, cfg) && w.producer.failed == []
    requires Decided(w.backend, i) && w.backend.sessions[i].payload in w.producer.generated
    ensures Receipt(w.backend.sessions[i].pc.verdict) || w.backend.sessions[i].pc.verdict.Aborted?
  {
    hide Linked, Inv, Sound;
    var g, v, rows := w.backend.sessions[i].payload, w.backend.sessions[i].pc.verdict, w.backend.db.rows;
    WorldIsLegal(cat, cfg, w);
    SessionIsOk(cat, w.backend, i);
    OriginalWasFound(cat, cfg, w, i);
    GeneratedIsOk(cfg, w.producer, g);
    GeneratedIsKnown(cat, cfg, w.producer, g);
    if Find(rows, g.eventId).Some? {
      GeneratedRowIsPayload(cat, cfg, w, g);
    }
    if g.kind.Refund? {
      var sale := SaleOfRefundIsStored(cat, cfg, w, g);
      if Find(rows, g.eventId).None? {
        GeneratedRefundFits(cat, cfg, w, g, Quantity);
        GeneratedRefundFits(cat, cfg, w, g, Amount);
      }
    }
  }

  predicate NothingFailed(p: Producer) {
    p.failed == [] && p.stats.permanentFailures == 0 && p.stats.duplicateReplayFailures == 0
  }

  lemma HandledWithoutFailure(cfg: Config, p: Producer, worker: nat, reaction: Reaction, replay: bool)
    requires NothingFailed(p) && !reaction.Rejected? && cfg.maxRetryAttempts == 0
    ensures NothingFailed(Handle(cfg, p, worker, reaction, replay))
  {
    hide CommitDelivery;
  }

  lemma HeldIsGenerated(cat: Catalog, cfg: Config, w: World, worker: nat)
    requires Linked(cat, cfg, w) && Holding(w, worker).Some?
    ensures Holding(w, worker).value.payload in w.producer.generated
  {
    assert EventOk(w.producer, w.producer.workers[worker].event);
  }

  lemma ResponseIsNoFailure(cat: Catalog, cfg: Config, w: World, worker: nat, i: nat, replay: bool)
    requires Linked(cat, cfg, w) && Connected(w) && Stocked(cat, cfg)
    requires NothingFailed(w.producer) && cfg.maxRetryAttempts == 0
    ensures NothingFailed(Happens(cat, cfg, w, Respond(worker, i, replay)).producer)
  {
    hide Linked, Connected, Stocked, Handle;
    if Answers(w, i, worker) {
      AnswerIsForHeld(w, i, worker);
      HeldIsGenerated(cat, cfg, w, worker);
      OwnVerdictsAreReceipts(cat, cfg, w, i);
      AnswersAreUnderstood(w.backend.sessions[i].pc.verdict);
      HandledWithoutFailure(cfg, w.producer, worker, React(Answer(w.backend.sessions[i].pc.verdict)), replay);
    }
  }

  lemma OtherwiseNoFailure(cat: Catalog, cfg: Config, w: World, h: Happening)
    requires NothingFailed(w.producer) && !h.Respond? && cfg.maxRetryAttempts == 0
    ensures NothingFailed(Happens(cat, cfg, w, h).producer)
  {
    hide FreshId, Step, Handle, MakeEvent;
    if h.Lost? {
      HandledWithoutFailure(cfg, w.producer, h.worker, React(TransportFailure), false);
    }
  }

  /** With an unlimited number of retries no delivery ever fails. */
  lemma {:induction false} NothingEverFails(cat: Catalog, cfg: Config, db: Db, hs: seq<Happening>)
    requires cfg.Valid() && cat.Valid() && Legal(cat, db.rows) && Stocked(cat, cfg)
    requires cfg.maxRetryAttempts == 0
    ensures NothingFailed(History(cat, cfg, db, hs).producer)
  {
    if hs != [] {
      hide Linked, Connected, Stocked, Happens;
      var w := History(cat, cfg, db, Init(hs));
      NothingEverFails(cat, cfg, db, Init(hs));
      HistoryIsLinked(cat, cfg, db, Init(hs));
      match Last(hs)
      case Respond(worker, i, replay) => ResponseIsNoFailure(cat, cfg, w, worker, i, replay);
      case _ => OtherwiseNoFailure(cat, cfg, w, Last(hs));
    }
  }

  /** The whole agreement.  With unlimited retries, over any history: each ledger entry, in quantity
      and in money, is within what the backend will still refund for that sale; every finished
      call for a generated event that was not aborted holds a receipt; and nothing has failed. */
  lemma ProducerAndBackendAgree(cat: Catalog, cfg: Config, db: Db, hs: seq<Happening>)
    requires cfg.Valid() && cat.Valid() && Legal(cat, db.rows) && Stocked(cat, cfg)
    requires cfg.maxRetryAttempts == 0
    ensures
      var w := History(cat, cfg, db, hs);
      && NothingFailed(w.producer)
      && (forall id, m: Measure | id in w.producer.book :: WithinBackend(w, id, m))
      && (forall i: nat | Decided(w.backend, i) && w.backend.sessions[i].payload in w.producer.generated
                     && !w.backend.sessions[i].pc.verdict.Aborted? ::
            Receipt(w.backend.sessions[i].pc.verdict))
  {
    hide Linked, Connected, Happens, History, Stocked;
    var w := History(cat, cfg, db, hs);
    NothingEverFails(cat, cfg, db, hs);
    HistoryIsLinked(cat, cfg, db, hs);
    forall id, m: Measure | id in w.producer.book
      ensures WithinBackend(w, id, m)
    {
      LedgerNeverOverstates(cat, cfg, w, id, m);
    }
    forall i: nat | Decided(w.backend, i) && w.backend.sessions[i].payload in w.producer.generated
               && !w.backend.sessions[i].pc.verdict.Aborted?
      ensures Receipt(w.backend.sessions[i].pc.verdict)
    {
      OwnVerdictsAreReceipts(cat, cfg, w, i);
    }
  }
}
