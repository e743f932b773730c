/** Why the agreement of ledger and backend needs unlimited retries. */
module Overstatement {
  import opened Events
  import opened Sessions
  import opened Races
  import opened Transport
  import opened Settings
  import opened Ledgers
  import opened Producers
  import opened Accounts
  import opened Delivery
  import opened Agreement

  // ---------------------------------------------------------------- a lost response and a retry limit

  function Onward(cat: Catalog, cfg: Config, w: World, hs: seq<Happening>): World {
    if hs == [] then w else Happens(cat, cfg, Onward(cat, cfg, w, Init(hs)), Last(hs))
  }

  lemma {:induction false} HistoryOnward(cat: Catalog, cfg: Config, db: Db, hs: seq<Happening>, more: seq<Happening>)
    requires cfg.Valid()
    ensures History(cat, cfg, db, hs + more) == Onward(cat, cfg, History(cat, cfg, db, hs), more)
  {
    if more == [] {
      assert hs + more == hs;
    } else {
      assert Init(hs + more) == hs + Init(more);
      HistoryOnward(cat, cfg, db, hs, Init(more));
    }
  }

  lemma {:induction false} OnwardTwice(cat: Catalog, cfg: Config, w: World, hs: seq<Happening>, more: seq<Happening>)
    ensures Onward(cat, cfg, w, hs + more) == Onward(cat, cfg, Onward(cat, cfg, w, hs), more)
  {
    if more == [] {
      assert hs + more == hs;
    } else {
      assert Init(hs + more) == hs + Init(more);
      OnwardTwice(cat, cfg, w, hs, Init(more));
    }
  }

  function Executes(i: nat, n: nat): seq<Happening> {
    if n == 0 then [] else Executes(i, n - 1) + [Execute(i)]
  }

  lemma {:induction false} ExecutesAreTurns(cat: Catalog, cfg: Config, w: World, i: nat, n: nat)
    ensures Onward(cat, cfg, w, Executes(i, n)) == w.(backend := Run(cat, w.backend, Turns(i, n)))
  {
    hide Step;
    if n > 0 {
      ExecutesAreTurns(cat, cfg, w, i, n - 1);
      assert Init(Executes(i, n)) == Executes(i, n - 1);
      assert Init(Turns(i, n)) == Turns(i, n - 1);
    }
  }

  function Served(i: nat, n: nat): seq<Happening> {
    [Arrive(n, 0)] + Executes(i, TURNS)
  }

  /** A posted request that arrives while the backend is quiet is ingested. */
  lemma ServedIsIngested(cat: Catalog, cfg: Config, w: World, n: nat)
    requires cat.Valid() && Legal(cat, w.backend.db.rows) && n < |w.wires.posts| && w.wires.posts[n].Valid()
    requires QuietExcept(w.backend, |w.backend.sessions|)
    ensures
      var i, p := |w.backend.sessions|, w.wires.posts[n];
      var (db, verdict) := Ingest(cat, w.backend.db, p, 0);
      Onward(cat, cfg, w, Served(i, n))
      == w.(backend := State(db, w.backend.sessions + [Session(p, 0, Done(verdict), None)]),
            wires := w.wires.(serves := w.wires.serves[i := n]))
  {
    var i, p := |w.backend.sessions|, w.wires.posts[n];
    hide Ingest, TURNS;
    var arrived := w.(backend := Step(cat, w.backend, Start(p, 0)),
                      wires := w.wires.(serves := w.wires.serves[i := n]));
    assert Init([Arrive(n, 0)]) == [] && Onward(cat, cfg, w, []) == w;
    assert Onward(cat, cfg, w, [Arrive(n, 0)]) == arrived;
    OnwardTwice(cat, cfg, w, [Arrive(n, 0)], Executes(i, TURNS));
    ExecutesAreTurns(cat, cfg, arrived, i, TURNS);
    CallAlone(cat, w.backend, p, 0);
    assert Init([Start(p, 0)]) == [] && Run(cat, w.backend, []) == w.backend;
    RunTwice(cat, w.backend, [Start(p, 0)], Turns(i, TURNS));
  }

  const SALE_DRAW := Draw(false, 1, 0, 1, 0, 0, None)

  const REFUND_DRAW := Draw(true, 2, 0, 1, 1, 1, None)

  function SoldPayload(cfg: Config): Payload {
    SalePayload(cfg, SALE_DRAW, 0)
  }

  function FullEntry(cfg: Config): Entry {
    EntryFor(cfg, SALE_DRAW, 0)
  }

  function RefundedPayload(cfg: Config): Payload {
    RefundPayload(cfg, REFUND_DRAW, FullEntry(cfg), 0)
  }

  function EmptyEntry(cfg: Config): Entry {
    FullEntry(cfg).(remainingQuantity := 0, remainingAmountCents := 0)
  }

  /** All workers idle except the first. */
  function Crew(cfg: Config, first: Worker): seq<Worker>
    requires cfg.Valid()
  {
    seq(cfg.workerCount, i => if i == 0 then first else Idle)
  }

  /** The row of a payload of this producer. */
  function StoredAs(cat: Catalog, cfg: Config, p: Payload): Row
    requires Stocked(cat, cfg)
  {
    RowFor(p, cat.storeIds[cfg.storeCode], cat.productIds[PRODUCT_CATALOG[0].sku], 0)
  }

  /** The sale is generated and posted. */
  function AfterSalePosted(cfg: Config): World
    requires cfg.Valid()
  {
    World(Fresh(Db([], map[])),
          Producer(map[], [], 1, None, Crew(cfg, Awaiting(SaleEvent(SoldPayload(cfg), FullEntry(cfg)), 1, true)),
                   Stats(1, 0, 0, 0, 0, 0, 0, 0), [SoldPayload(cfg)], [], [],
                   [SoldPayload(cfg)], 1, 0, 0),
          Wires([SoldPayload(cfg)], {}, map[0 := 0], map[], []))
  }

  /** The first worker takes the only queued event and posts it. */
  lemma EventIsPosted(cat: Catalog, cfg: Config, w: World, e: Event)
    requires cfg.Valid() && w.producer.workers == Crew(cfg, Idle) && w.producer.queue == [e]
    ensures Onward(cat, cfg, w, [Fetch(0), Post(0)])
            == w.(producer := w.producer.(queue := [], workers := Crew(cfg, Awaiting(e, 1, true)),
                                          taken := w.producer.taken + [e.payload], sent := w.producer.sent + 1),
                  wires := AfterPost(w.wires, 0, Awaiting(e, 0, false)))
  {
    assert Init([Fetch(0), Post(0)]) == [Fetch(0)];
    assert Init([Fetch(0)]) == [] && Onward(cat, cfg, w, []) == w;
    assert Enabled(cfg, w.producer, Take(0));
    var taken := Happens(cat, cfg, w, Fetch(0));
    assert taken.producer.workers == Crew(cfg, Awaiting(e, 0, false));
    assert Enabled(cfg, taken.producer, Send(0));
    assert taken.producer.workers[0 := Awaiting(e, 1, true)] == Crew(cfg, Awaiting(e, 1, true));
  }

  lemma SaleIsProduced(cat: Catalog, cfg: Config)
    requires cfg.Valid()
    ensures History(cat, cfg, Db([], map[]), [Produce(SALE_DRAW, 0)])
            == World(Fresh(Db([], map[])),
                     Started(cfg).(queue := [SaleEvent(SoldPayload(cfg), FullEntry(cfg))], unfinished := 1,
                                   stats := Stats(1, 0, 0, 0, 0, 0, 0, 0), generated := [SoldPayload(cfg)]),
                     Wires([], {}, map[], map[], []))
  {
    assert Init([Produce(SALE_DRAW, 0)]) == [];
    assert Enabled(cfg, Started(cfg), Generate(SALE_DRAW, 0));
  }

  lemma SaleIsPosted(cat: Catalog, cfg: Config)
    requires cfg.Valid()
    ensures History(cat, cfg, Db([], map[]), [Produce(SALE_DRAW, 0)] + [Fetch(0), Post(0)]) == AfterSalePosted(cfg)
  {
    hide Happens;
    SaleIsProduced(cat, cfg);
    HistoryOnward(cat, cfg, Db([], map[]), [Produce(SALE_DRAW, 0)], [Fetch(0), Post(0)]);
    var w := History(cat, cfg, Db([], map[]), [Produce(SALE_DRAW, 0)]);
    assert w.producer.workers == Crew(cfg, Idle);
    EventIsPosted(cat, cfg, w, SaleEvent(SoldPayload(cfg), FullEntry(cfg)));
  }

  /** The wires after the sale: its POST was served by the first session. */
  function SaleWires(cfg: Config): Wires {
    Wires([SoldPayload(cfg)], {}, map[0 := 0], map[0 := 0], [0])
  }

  /** The sale is delivered and filed. */
  function SaleFiled(cfg: Config): Producer
    requires cfg.Valid()
  {
    Producer(map[1 := FullEntry(cfg)], [], 0, None, Crew(cfg, Idle),
             Stats(1, 0, 1, 0, 0, 0, 0, 0), [SoldPayload(cfg)], [SoldPayload(cfg)], [],
             [SoldPayload(cfg)], 1, 0, 0)
  }

  lemma SaleIsDelivered(cat: Catalog, cfg: Config, w: World)
    requires cfg.Valid() && w == AfterSalePosted(cfg).(backend := w.backend, wires := SaleWires(cfg).(heard := []))
    requires w.backend.sessions == [Session(SoldPayload(cfg), 0, Done(Accepted(0)), None)]
    ensures Happens(cat, cfg, w, Respond(0, 0, false)) == w.(producer := SaleFiled(cfg), wires := SaleWires(cfg))
  {
    AnswersAreUnderstood(Accepted(0));
    assert Enabled(cfg, w.producer, Deliver(0, true, false));
    assert w.producer.workers[0 := Idle] == Crew(cfg, Idle);
  }

  /** The refund of all of it is generated and posted this many times; open says whether the latest
      POST is still out. */
  function AfterPosts(cfg: Config, backend: State, serves: map<nat, nat>, posts: nat, open: bool): World
    requires cfg.Valid()
  {
    World(backend,
          Producer(map[1 := EmptyEntry(cfg)], [], 1, None,
                   Crew(cfg, Awaiting(RefundEvent(RefundedPayload(cfg), 1), posts, open)),
                   Stats(1, 1, 1, 0, 0, 0, 0, 0), [SoldPayload(cfg), RefundedPayload(cfg)], [SoldPayload(cfg)], [],
                   [SoldPayload(cfg), RefundedPayload(cfg)], 1 + posts, 0, 0),
          Wires([SoldPayload(cfg)] + seq(posts, i => RefundedPayload(cfg)), {}, map[0 := posts], serves, [0]))
  }

  lemma RefundIsProduced(cat: Catalog, cfg: Config, backend: State)
    requires cfg.Valid() && Stocked(cat, cfg)
    requires backend.db.rows == [StoredAs(cat, cfg, SoldPayload(cfg))]
    requires backend.sessions == [Session(SoldPayload(cfg), 0, Done(Accepted(0)), None)]
    ensures Happens(cat, cfg, World(backend, SaleFiled(cfg), SaleWires(cfg)), Produce(REFUND_DRAW, 0))
            == World(backend,
                     SaleFiled(cfg).(book := map[1 := EmptyEntry(cfg)],
                                     queue := [RefundEvent(RefundedPayload(cfg), 1)], unfinished := 1,
                                     stats := Stats(1, 1, 1, 0, 0, 0, 0, 0),
                                     generated := [SoldPayload(cfg), RefundedPayload(cfg)]),
                     SaleWires(cfg))
  {
    var p := SaleFiled(cfg);
    assert p.book[1].Refundable();
    assert Enabled(cfg, p, Generate(REFUND_DRAW, 0));
    assert MakeEvent(cfg, p.book, REFUND_DRAW, 0).1 == map[1 := EmptyEntry(cfg)];
  }

  lemma RefundIsPosted(cat: Catalog, cfg: Config, backend: State)
    requires cfg.Valid() && Stocked(cat, cfg)
    requires backend.db.rows == [StoredAs(cat, cfg, SoldPayload(cfg))]
    requires backend.sessions == [Session(SoldPayload(cfg), 0, Done(Accepted(0)), None)]
    ensures Onward(cat, cfg, World(backend, SaleFiled(cfg), SaleWires(cfg)),
                   [Produce(REFUND_DRAW, 0)] + [Fetch(0), Post(0)])
            == AfterPosts(cfg, backend, map[0 := 0], 1, true)
  {
    var w, produce := World(backend, SaleFiled(cfg), SaleWires(cfg)), Produce(REFUND_DRAW, 0);
    RefundIsProduced(cat, cfg, backend);
    hide Happens, RefundedPayload, SoldPayload, EmptyEntry, FullEntry, Stocked, StoredAs;
    assert Init([produce]) == [] && Onward(cat, cfg, w, []) == w;
    assert Onward(cat, cfg, w, [produce]) == Happens(cat, cfg, w, produce);
    hide Onward;
    assert SaleFiled(cfg).workers == Crew(cfg, Idle);
    OnwardTwice(cat, cfg, w, [produce], [Fetch(0), Post(0)]);
    EventIsPosted(cat, cfg, Happens(cat, cfg, w, produce), RefundEvent(RefundedPayload(cfg), 1));
    assert [RefundedPayload(cfg)] == seq(1, i => RefundedPayload(cfg));
  }

  /** Each POST but the last is lost and repeated. */
  function Repeated(n: nat): seq<Happening> {
    if n == 0 then [] else Repeated(n - 1) + [Lost(0), Post(0)]
  }

  lemma PostIsLost(cat: Catalog, cfg: Config, backend: State, serves: map<nat, nat>, posts: nat)
    requires cfg.Valid() && 1 <= posts && !cfg.LimitReached(posts)
    ensures Happens(cat, cfg, AfterPosts(cfg, backend, serves, posts, true), Lost(0))
            == AfterPosts(cfg, backend, serves, posts, false)
  {
    hide RefundedPayload, SoldPayload, EmptyEntry;
    var p, e := AfterPosts(cfg, backend, serves, posts, true).producer, RefundEvent(RefundedPayload(cfg), 1);
    assert React(TransportFailure).TryAgain? && Enabled(cfg, p, Retry(0));
    assert p.workers[0 := Awaiting(e, posts, false)] == Crew(cfg, Awaiting(e, posts, false));
  }

  lemma PostIsMadeAgain(cat: Catalog, cfg: Config, backend: State, serves: map<nat, nat>, posts: nat)
    requires cfg.Valid() && 1 <= posts
    ensures Happens(cat, cfg, AfterPosts(cfg, backend, serves, posts, false), Post(0))
            == AfterPosts(cfg, backend, serves, posts + 1, true)
  {
    hide RefundedPayload, SoldPayload, EmptyEntry;
    var closed, refunded := AfterPosts(cfg, backend, serves, posts, false), RefundedPayload(cfg);
    var e := RefundEvent(refunded, 1);
    assert Enabled(cfg, closed.producer, Send(0));
    assert closed.producer.workers[0 := Awaiting(e, posts + 1, true)] == Crew(cfg, Awaiting(e, posts + 1, true));
    assert seq(posts, i => refunded) + [refunded] == seq(posts + 1, i => refunded);
    assert closed.wires.posts + [refunded] == [SoldPayload(cfg)] + (seq(posts, i => refunded) + [refunded]);
  }

  lemma PostIsRepeated(cat: Catalog, cfg: Config, backend: State, serves: map<nat, nat>, posts: nat)
    requires cfg.Valid() && 1 <= posts && !cfg.LimitReached(posts)
    ensures Onward(cat, cfg, AfterPosts(cfg, backend, serves, posts, true), [Lost(0), Post(0)])
            == AfterPosts(cfg, backend, serves, posts + 1, true)
  {
    hide Happens, AfterPosts;
    var w := AfterPosts(cfg, backend, serves, posts, true);
    assert Init([Lost(0), Post(0)]) == [Lost(0)] && Init([Lost(0)]) == [];
    assert Onward(cat, cfg, w, []) == w;
    assert Onward(cat, cfg, w, [Lost(0)]) == Happens(cat, cfg, w, Lost(0));
    PostIsLost(cat, cfg, backend, serves, posts);
    PostIsMadeAgain(cat, cfg, backend, serves, posts);
  }

  lemma {:induction false} PostsAreRepeated(cat: Catalog, cfg: Config, backend: State, serves: map<nat, nat>, n: nat)
    requires cfg.Valid() && n < cfg.maxRetryAttempts
    ensures Onward(cat, cfg, AfterPosts(cfg, backend, serves, 1, true), Repeated(n))
            == AfterPosts(cfg, backend, serves, 1 + n, true)
  {
    hide Happens, AfterPosts;
    if n > 0 {
      PostsAreRepeated(cat, cfg, backend, serves, n - 1);
      OnwardTwice(cat, cfg, AfterPosts(cfg, backend, serves, 1, true), Repeated(n - 1), [Lost(0), Post(0)]);
      PostIsRepeated(cat, cfg, backend, serves, n);
    }
  }

  /** The last POST the limit allows is lost too. */
  lemma RefundIsRolledBack(cat: Catalog, cfg: Config, backend: State, serves: map<nat, nat>)
    requires cfg.Valid() && cfg.maxRetryAttempts > 0
    ensures
      var w := Happens(cat, cfg, AfterPosts(cfg, backend, serves, cfg.maxRetryAttempts, true), Lost(0));
      && w.producer.book == map[1 := FullEntry(cfg)] && w.backend == backend
      && w.producer.sent == 1 + cfg.maxRetryAttempts && w.producer.failed == [RefundedPayload(cfg)]
  {
    var p := AfterPosts(cfg, backend, serves, cfg.maxRetryAttempts, true).producer;
    assert React(TransportFailure).TryAgain? && Enabled(cfg, p, Fail(0));
  }

  lemma SoldIsValid(cat: Catalog, cfg: Config)
    requires Stocked(cat, cfg)
    ensures SoldPayload(cfg).Valid() && RefundedPayload(cfg).Valid()
    ensures cat.Knows(SoldPayload(cfg)) && cat.Knows(RefundedPayload(cfg))
    ensures SoldPayload(cfg).eventId == 1 && SoldPayload(cfg).kind == Sale && SoldPayload(cfg).quantity == 1
    ensures RefundedPayload(cfg).eventId == 2 && RefundedPayload(cfg).kind == Refund(1)
    ensures RefundedPayload(cfg).quantity == 1 && RefundedPayload(cfg).amountCents == SoldPayload(cfg).amountCents
    ensures EntrySize(Quantity, FullEntry(cfg)) == 1
    ensures forall p | p == SoldPayload(cfg) || p == RefundedPayload(cfg) ::
              p.storeCode == cfg.storeCode && p.productSku == PRODUCT_CATALOG[0].sku
  {
    assert PRODUCT_CATALOG[0].sku in cat.productIds;
  }

  /** The backend accepts the sale, and then the refund of all of it. */
  lemma TablesOfTheRun(cat: Catalog, cfg: Config)
    requires cat.Valid() && Stocked(cat, cfg)
    ensures
      var sold, refunded := StoredAs(cat, cfg, SoldPayload(cfg)), StoredAs(cat, cfg, RefundedPayload(cfg));
      && Legal(cat, [sold])
      && Judge(cat, [], SoldPayload(cfg), 0) == Accepted(0)
      && Judge(cat, [sold], RefundedPayload(cfg), 0) == Accepted(0)
      && Refunded([sold] + [refunded], 1, Quantity) == 1
      && Find([sold] + [refunded], 1) == Some(sold)
  {
    hide SoldPayload, RefundedPayload;
    SoldIsValid(cat, cfg);
    var rows, row := [StoredAs(cat, cfg, SoldPayload(cfg))], StoredAs(cat, cfg, SoldPayload(cfg));
    assert Init(rows) == [] && Last(rows) == row;
    assert Find([], 1).None?;
    assert Legal(cat, []) && Admissible(cat, [], row);
    assert Find(rows, 1) == Some(row) && Find(rows, 2).None?;
    assert Refunded([], 1, Quantity) == 0 && Refunded([], 1, Amount) == 0;
    assert Refunded(rows, 1, Quantity) == 0 && Refunded(rows, 1, Amount) == 0;
    AppendRow(rows, StoredAs(cat, cfg, RefundedPayload(cfg)));
  }

  function FirstLeg(cfg: Config): seq<Happening> {
    [Produce(SALE_DRAW, 0)] + [Fetch(0), Post(0)] + Served(0, 0) + [Respond(0, 0, false)]
  }

  /** After the sale is delivered. */
  function AfterSale(cat: Catalog, cfg: Config): World
    requires cfg.Valid() && Stocked(cat, cfg)
  {
    World(State(Db([StoredAs(cat, cfg, SoldPayload(cfg))], map[cat.storeIds[cfg.storeCode] := 0]),
                [Session(SoldPayload(cfg), 0, Done(Accepted(0)), None)]),
          SaleFiled(cfg), SaleWires(cfg))
  }

  lemma FirstLegEnds(cat: Catalog, cfg: Config)
    requires cfg.Valid() && cat.Valid() && Stocked(cat, cfg)
    ensures History(cat, cfg, Db([], map[]), FirstLeg(cfg)) == AfterSale(cat, cfg)
  {
    var db, posted := Db([], map[]), AfterSalePosted(cfg);
    TablesOfTheRun(cat, cfg);
    SoldIsValid(cat, cfg);
    hide Judge, Happens, Enabled, Next, Started, SoldPayload, FullEntry, Served, TURNS, Legal;
    SaleIsPosted(cat, cfg);
    ServedIsIngested(cat, cfg, posted, 0);
    var w := Onward(cat, cfg, posted, Served(0, 0));
    assert w.backend == AfterSale(cat, cfg).backend;
    SaleIsDelivered(cat, cfg, w);
    HistoryOnward(cat, cfg, db, [Produce(SALE_DRAW, 0)] + [Fetch(0), Post(0)], Served(0, 0));
    assert Init(FirstLeg(cfg)) == [Produce(SALE_DRAW, 0)] + [Fetch(0), Post(0)] + Served(0, 0);
  }

  /** The refund is posted, and this first POST is served. */
  function ServedLeg(cfg: Config): seq<Happening> {
    [Produce(REFUND_DRAW, 0)] + [Fetch(0), Post(0)] + Served(1, 1)
  }

  lemma RefundIsServed(cat: Catalog, cfg: Config) returns (backend: State)
    requires cfg.Valid() && cat.Valid() && Stocked(cat, cfg)
    ensures Onward(cat, cfg, AfterSale(cat, cfg), ServedLeg(cfg))
            == AfterPosts(cfg, backend, map[0 := 0, 1 := 1], 1, true)
    ensures backend.db.rows == [StoredAs(cat, cfg, SoldPayload(cfg))] + [StoredAs(cat, cfg, RefundedPayload(cfg))]
  {
    TablesOfTheRun(cat, cfg);
    SoldIsValid(cat, cfg);
    hide Judge, Happens, Onward, SoldPayload, RefundedPayload, FullEntry, EmptyEntry, Served, TURNS, Legal;
    var w := AfterSale(cat, cfg);
    var posted := AfterPosts(cfg, w.backend, map[0 := 0], 1, true);
    RefundIsPosted(cat, cfg, w.backend);
    ServedIsIngested(cat, cfg, posted, 1);
    OnwardTwice(cat, cfg, w, [Produce(REFUND_DRAW, 0)] + [Fetch(0), Post(0)], Served(1, 1));
    backend := Onward(cat, cfg, posted, Served(1, 1)).backend;
  }

  /** Its answer is lost, and so is every further POST. */
  function SecondLeg(cfg: Config): seq<Happening>
    requires cfg.maxRetryAttempts > 0
  {
    ServedLeg(cfg) + Repeated(cfg.maxRetryAttempts - 1) + [Lost(0)]
  }

  lemma SecondLegEnds(cat: Catalog, cfg: Config)
    requires cfg.Valid() && cat.Valid() && Stocked(cat, cfg) && cfg.maxRetryAttempts > 0
    ensures
      var w := Onward(cat, cfg, AfterSale(cat, cfg), SecondLeg(cfg));
      && w.producer.book == map[1 := FullEntry(cfg)]
      && w.producer.sent == 1 + cfg.maxRetryAttempts
      && w.backend.db.rows
         == [StoredAs(cat, cfg, SoldPayload(cfg))] + [StoredAs(cat, cfg, RefundedPayload(cfg))]
  {
    hide Happens, ServedLeg, AfterSale, AfterPosts, StoredAs, FullEntry, Repeated;
    var w, repeated := AfterSale(cat, cfg), Repeated(cfg.maxRetryAttempts - 1);
    var backend := RefundIsServed(cat, cfg);
    OnwardTwice(cat, cfg, w, ServedLeg(cfg), repeated);
    PostsAreRepeated(cat, cfg, backend, map[0 := 0, 1 := 1], cfg.maxRetryAttempts - 1);
    RefundIsRolledBack(cat, cfg, backend, map[0 := 0, 1 := 1]);
    assert Init(SecondLeg(cfg)) == ServedLeg(cfg) + repeated;
    assert Last(SecondLeg(cfg)) == Lost(0);
  }

  /** One sale, delivered with one POST; one refund of it, committed by the backend at the first POST, whose answer
      is lost like every further POST up to the limit.  The producer rolls its reservation back, and
      its ledger says that all of the sale can still be refunded while the backend will refund
      nothing. */
  lemma LedgerCanOverstate(cat: Catalog, cfg: Config) returns (hs: seq<Happening>)
    requires cfg.Valid() && cat.Valid() && Stocked(cat, cfg) && cfg.maxRetryAttempts > 0
    ensures
      var w := History(cat, cfg, Db([], map[]), hs);
      && w.producer.sent == 1 + cfg.maxRetryAttempts
      && 1 in w.producer.book && !WithinBackend(w, 1, Quantity)
  {
    hs := FirstLeg(cfg) + SecondLeg(cfg);
    TablesOfTheRun(cat, cfg);
    SoldIsValid(cat, cfg);
    FirstLegEnds(cat, cfg);
    SecondLegEnds(cat, cfg);
    HistoryOnward(cat, cfg, Db([], map[]), FirstLeg(cfg), SecondLeg(cfg));
    hide FirstLeg, SecondLeg, History, Onward, SoldPayload, RefundedPayload, FullEntry, Find, Refunded, Stocked;
  }

  /** No ledger entry promises more than the backend will still refund. */
  ghost predicate NothingOverstated(w: World) {
    forall id, m: Measure | id in w.producer.book :: WithinBackend(w, id, m)
  }

  /** The ledger agrees with the backend in every history, over every table, exactly when the
      producer retries without limit. */
  lemma AgreementNeedsUnlimitedRetries(cat: Catalog, cfg: Config)
    requires cfg.Valid() && cat.Valid() && Stocked(cat, cfg)
    ensures cfg.maxRetryAttempts == 0 <==>
            forall db: Db, hs | Legal(cat, db.rows) :: NothingOverstated(History(cat, cfg, db, hs))
  {
    hide Stocked, History;
    if cfg.maxRetryAttempts == 0 {
      forall db: Db, hs | Legal(cat, db.rows)
        ensures NothingOverstated(History(cat, cfg, db, hs))
      {
        ProducerAndBackendAgree(cat, cfg, db, hs);
      }
    } else {
      var hs := LedgerCanOverstate(cat, cfg);
      assert Legal(cat, Db([], map[]).rows);
      assert !NothingOverstated(History(cat, cfg, Db([], map[]), hs));
    }
  }
}
