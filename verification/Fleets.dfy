/** Any number of producers on one backend, and why what they leave behind can always be removed. */
module Fleets {
  import opened Events
  import opened Sessions
  import opened Refinement
  import opened Settings
  import opened Ledgers
  import opened Producers
  import opened Accounts
  import opened Delivery
  import opened Agreement
  import opened Cleanup
  import opened RunRows

  datatype Fleet = Fleet(backend: State, producers: seq<Producer>, wires: seq<Wires>)

  /** Happening h, of producer k or of its network; the backend's own happenings belong to anybody. */
  datatype Occurrence = Occurrence(k: nat, h: Happening)

  predicate Manned(f: Fleet, cfgs: seq<Config>) {
    |f.producers| == |cfgs| && |f.wires| == |cfgs|
  }

  /** The world as producer k and its network see it: all others are foreign clients. */
  function View(f: Fleet, k: nat): World
    requires k < |f.producers| && k < |f.wires|
  {
    World(f.backend, f.producers[k], f.wires[k])
  }

  predicate FreshForAll(f: Fleet, id: Uuid) {
    forall j | 0 <= j < |f.producers| :: !UsedId(f.producers[j], id)
  }

  predicate TouchesNone(f: Fleet, p: Payload) {
    forall j | 0 <= j < |f.producers| :: !Touches(f.producers[j], p)
  }

  predicate Admitted(f: Fleet, h: Happening) {
    && (h.Produce? ==> FreshForAll(f, h.draw.eventId))
    && (h.Foreign? ==> TouchesNone(f, h.payload))
  }

  function Occurs(cat: Catalog, cfgs: seq<Config>, f: Fleet, o: Occurrence): Fleet
    requires Manned(f, cfgs)
  {
    if o.k >= |cfgs| || !Admitted(f, o.h) then f
    else
      var w := Happens(cat, cfgs[o.k], View(f, o.k), o.h);
      Fleet(w.backend, f.producers[o.k := w.producer], f.wires[o.k := w.wires])
  }

  predicate ValidConfigs(cfgs: seq<Config>) {
    forall k | 0 <= k < |cfgs| :: cfgs[k].Valid()
  }

  function Launched(cfgs: seq<Config>, db: Db): Fleet
    requires ValidConfigs(cfgs)
  {
    Fleet(Fresh(db), seq(|cfgs|, k requires 0 <= k < |cfgs| => Started(cfgs[k])),
          seq(|cfgs|, k => Wires([], {}, map[], map[], [])))
  }

  function Chronicle(cat: Catalog, cfgs: seq<Config>, db: Db, os: seq<Occurrence>): (f: Fleet)
    requires ValidConfigs(cfgs)
    ensures Manned(f, cfgs)
  {
    if os == [] then Launched(cfgs, db) else Occurs(cat, cfgs, Chronicle(cat, cfgs, db, Init(os)), Last(os))
  }

  // ---------------------------------------------------------------- every producer sees a linked world

  /** What one producer generated is foreign to every other. */
  predicate Strangers(f: Fleet) {
    forall j, k | 0 <= j < |f.producers| && 0 <= k < |f.producers| && j != k ::
      forall g | g in f.producers[j].generated :: !Touches(f.producers[k], g)
  }

  ghost predicate AllLinked(cat: Catalog, cfgs: seq<Config>, f: Fleet)
    requires Manned(f, cfgs)
  {
    forall k | 0 <= k < |cfgs| :: Linked(cat, cfgs[k], View(f, k)) && Connected(View(f, k))
  }

  /** A refund refers to a sale of its own producer. */
  lemma OriginalIsOwn(cfg: Config, p: Producer, g: Payload)
    requires Sound(cfg, p) && g in p.generated && g.kind.Refund?
    ensures UsedId(p, g.kind.originalEventId)
  {
    assert PayloadOk(cfg, p, g);
    var i: nat :| Backs(p, g.kind.originalEventId, i);
  }

  lemma IdIsUsed(p: Producer, g: Payload)
    requires g in p.generated
    ensures UsedId(p, g.eventId)
  {
    var i :| 0 <= i < |p.generated| && p.generated[i] == g;
    assert p.generated[i].eventId == g.eventId;
  }

  lemma SaleIsGenerated(cfg: Config, p: Producer, id: Uuid) returns (sale: Payload)
    requires UsedId(p, id)
    ensures sale in p.generated && sale.eventId == id
  {
    var i :| 0 <= i < |p.generated| && p.generated[i].eventId == id;
    sale := p.generated[i];
  }

  lemma NewRefundIsOwn(cfg: Config, p: Producer, d: Draw, now: Instant, g: Payload)
    requires Sound(cfg, p) && Enabled(cfg, p, Generate(d, now))
    requires g in Next(cfg, p, Generate(d, now)).generated && g !in p.generated && g.kind.Refund?
    ensures UsedId(p, g.kind.originalEventId)
  {
    assert g == MakeEvent(cfg, p.book, d, now).0.payload;
    var i: nat :| Backs(p, d.pick, i);
  }

  /** A fresh payload of producer k is foreign to j, and j's payloads stay foreign to k. */
  lemma StillStrangers(cat: Catalog, cfgs: seq<Config>, f: Fleet, k: nat, d: Draw, now: Instant, j: nat)
    requires Manned(f, cfgs) && AllLinked(cat, cfgs, f) && Strangers(f) && FreshForAll(f, d.eventId)
    requires k < |cfgs| && j < |cfgs| && j != k && Enabled(cfgs[k], f.producers[k], Generate(d, now))
    ensures
      var p' := Next(cfgs[k], f.producers[k], Generate(d, now));
      && (forall g | g in p'.generated :: !Touches(f.producers[j], g))
      && (forall g | g in f.producers[j].generated :: !Touches(p', g))
  {
    hide Inv, RowsAreOurs, SessionsAreOurs, OriginalsAreFound, UsedId, Sound;
    var p, q := f.producers[k], f.producers[j];
    var p' := Next(cfgs[k], p, Generate(d, now));
    assert Linked(cat, cfgs[k], View(f, k)) && Linked(cat, cfgs[j], View(f, j));
    NextIsSound(cfgs[k], p, Generate(d, now));
    forall g | g in p'.generated ensures !Touches(q, g) {
      if g !in p.generated {
        DrawGrows(cfgs[k], p, d, now);
        if g.kind.Refund? {
          NewRefundIsOwn(cfgs[k], p, d, now, g);
          var sale := SaleIsGenerated(cfgs[k], p, g.kind.originalEventId);
        }
      }
    }
    forall g | g in q.generated ensures !Touches(p', g) {
      UsedAfterDraw(cfgs[k], p, d, now, g.eventId);
      IdIsUsed(q, g);
      if g.kind.Refund? {
        UsedAfterDraw(cfgs[k], p, d, now, g.kind.originalEventId);
        OriginalIsOwn(cfgs[j], q, g);
      }
    }
  }

  /** Nobody's view but the acting producer's changes, except by what the backend does. */
  lemma OthersStayLinked(cat: Catalog, cfgs: seq<Config>, f: Fleet, o: Occurrence, j: nat)
    requires Manned(f, cfgs) && AllLinked(cat, cfgs, f) && Strangers(f)
    requires forall k | 0 <= k < |cfgs| :: Stocked(cat, cfgs[k])
    requires o.k < |cfgs| && Admitted(f, o.h) && j < |cfgs| && j != o.k
    ensures
      var w := View(Occurs(cat, cfgs, f, o), j);
      Linked(cat, cfgs[j], w) && Connected(w)
  {
    hide Linked, Connected, Happens, Touches, Step;
    var f', own := Occurs(cat, cfgs, f, o), View(f, o.k);
    assert View(f', j) == View(f, j).(backend := f'.backend);
    BackendMoves(cat, cfgs[o.k], own, o.h);
    var a := BackendAction(own, o.h);
    if a.Some? {
      if o.h.Arrive? {
        PostedIsGenerated(own, o.h.post);
      }
      BackendHappeningIsLinked(cat, cfgs[j], View(f, j), a.value);
    }
  }

  lemma OccursStaysLinked(cat: Catalog, cfgs: seq<Config>, f: Fleet, o: Occurrence)
    requires Manned(f, cfgs) && AllLinked(cat, cfgs, f) && Strangers(f)
    requires forall k | 0 <= k < |cfgs| :: Stocked(cat, cfgs[k])
    ensures AllLinked(cat, cfgs, Occurs(cat, cfgs, f, o))
  {
    if o.k < |cfgs| && Admitted(f, o.h) {
      forall j | 0 <= j < |cfgs|
        ensures
          var w := View(Occurs(cat, cfgs, f, o), j);
          Linked(cat, cfgs[j], w) && Connected(w)
      {
        hide Linked, Connected, Stocked, Happens, Strangers, Admitted;
        if j == o.k {
          HappensIsLinked(cat, cfgs[j], View(f, j), o.h);
        } else {
          OthersStayLinked(cat, cfgs, f, o, j);
        }
      }
    }
  }

  lemma SameGeneratedSameTouches(p: Producer, p': Producer)
    requires p'.generated == p.generated
    ensures forall g: Payload :: Touches(p', g) == Touches(p, g)
  {
  }

  lemma OccursKeepsStrangers(cat: Catalog, cfgs: seq<Config>, f: Fleet, o: Occurrence)
    requires Manned(f, cfgs) && AllLinked(cat, cfgs, f) && Strangers(f)
    ensures Strangers(Occurs(cat, cfgs, f, o))
  {
    if o.k < |cfgs| && Admitted(f, o.h) {
      hide Linked, Connected, Happens, Enabled, Next, UsedId, FreshForAll;
      var f' := Occurs(cat, cfgs, f, o);
      HappensGenerates(cat, cfgs[o.k], View(f, o.k), o.h);
      forall j | 0 <= j < |cfgs| && j != o.k
        ensures forall g | g in f'.producers[o.k].generated :: !Touches(f'.producers[j], g)
        ensures forall g | g in f'.producers[j].generated :: !Touches(f'.producers[o.k], g)
      {
        if f'.producers[o.k].generated == f.producers[o.k].generated {
          SameGeneratedSameTouches(f.producers[o.k], f'.producers[o.k]);
        } else {
          StillStrangers(cat, cfgs, f, o.k, o.h.draw, o.h.now, j);
        }
      }
    }
  }

  lemma LaunchedAreStrangers(cfgs: seq<Config>, db: Db)
    requires ValidConfigs(cfgs)
    ensures Strangers(Launched(cfgs, db))
  {
  }

  /** Each producer of every chronicle sees a linked world. */
  lemma {:induction false} ChronicleIsLinked(cat: Catalog, cfgs: seq<Config>, db: Db, os: seq<Occurrence>)
    requires ValidConfigs(cfgs) && cat.Valid() && Legal(cat, db.rows)
    requires forall k | 0 <= k < |cfgs| :: Stocked(cat, cfgs[k])
    ensures AllLinked(cat, cfgs, Chronicle(cat, cfgs, db, os)) && Strangers(Chronicle(cat, cfgs, db, os))
  {
    hide Linked, Connected, Stocked, Occurs, Strangers, Touches;
    if os == [] {
      LaunchedAreStrangers(cfgs, db);
      forall k | 0 <= k < |cfgs|
        ensures
          var w := View(Launched(cfgs, db), k);
          Linked(cat, cfgs[k], w) && Connected(w)
      {
        HistoryIsLinked(cat, cfgs[k], db, []);
      }
    } else {
      ChronicleIsLinked(cat, cfgs, db, Init(os));
      OccursStaysLinked(cat, cfgs, Chronicle(cat, cfgs, db, Init(os)), Last(os));
      OccursKeepsStrangers(cat, cfgs, Chronicle(cat, cfgs, db, Init(os)), Last(os));
    }
  }

  // ---------------------------------------------------------------- all ledgers agree

  lemma {:induction false} FleetNeverFails(cat: Catalog, cfgs: seq<Config>, db: Db, os: seq<Occurrence>, k: nat)
    requires ValidConfigs(cfgs) && cat.Valid() && Legal(cat, db.rows)
    requires forall j | 0 <= j < |cfgs| :: Stocked(cat, cfgs[j])
    requires k < |cfgs| && cfgs[k].maxRetryAttempts == 0
    ensures NothingFailed(Chronicle(cat, cfgs, db, os).producers[k])
  {
    hide Linked, Connected, Stocked, Happens, Strangers, NothingFailed;
    if os == [] {
      NothingEverFails(cat, cfgs[k], db, []);
    } else {
      var f, o := Chronicle(cat, cfgs, db, Init(os)), Last(os);
      FleetNeverFails(cat, cfgs, db, Init(os), k);
      ChronicleIsLinked(cat, cfgs, db, Init(os));
      if o.k == k && Admitted(f, o.h) {
        match o.h
        case Respond(worker, i, replay) => ResponseIsNoFailure(cat, cfgs[k], View(f, k), worker, i, replay);
        case _ => OtherwiseNoFailure(cat, cfgs[k], View(f, k), o.h);
      }
    }
  }

  /** Each producer of a fleet that retries without limit keeps a ledger within what the backend will
      still refund, whatever the other producers and clients do. */
  lemma FleetAgrees(cat: Catalog, cfgs: seq<Config>, db: Db, os: seq<Occurrence>, k: nat, id: Uuid, m: Measure)
    requires ValidConfigs(cfgs) && cat.Valid() && Legal(cat, db.rows)
    requires forall j | 0 <= j < |cfgs| :: Stocked(cat, cfgs[j])
    requires k < |cfgs| && cfgs[k].maxRetryAttempts == 0
    requires id in Chronicle(cat, cfgs, db, os).producers[k].book
    ensures WithinBackend(View(Chronicle(cat, cfgs, db, os), k), id, m)
  {
    hide Linked, Connected, Stocked, Occurs, Strangers;
    FleetNeverFails(cat, cfgs, db, os, k);
    ChronicleIsLinked(cat, cfgs, db, os);
    LedgerNeverOverstates(cat, cfgs[k], View(Chronicle(cat, cfgs, db, os), k), id, m);
  }

  // ---------------------------------------------------------------- where rows come from

  /** Generated by a producer with this label. */
  predicate Produced(cfgs: seq<Config>, producers: seq<Producer>, id: Uuid, source: string) {
    exists j | 0 <= j < |producers| && j < |cfgs| :: UsedId(producers[j], id) && cfgs[j].instanceLabel == source
  }

  predicate StoredIn(rows: seq<Row>, id: Uuid, source: string) {
    exists i | 0 <= i < |rows| :: rows[i].eventId == id && rows[i].sourceInstance == source
  }

  /** Requested by another client. */
  predicate Requested(os: seq<Occurrence>, id: Uuid, source: string) {
    exists i | 0 <= i < |os| ::
      os[i].h.Foreign? && os[i].h.payload.eventId == id && os[i].h.payload.sourceInstance == source
  }

  function Origin(cfgs: seq<Config>, producers: seq<Producer>, rows: seq<Row>, os: seq<Occurrence>)
    : (Uuid, string) -> bool
  {
    (id: Uuid, source: string) =>
      Produced(cfgs, producers, id, source) || StoredIn(rows, id, source) || Requested(os, id, source)
  }

  lemma SameGeneratedSameIds(p: Producer, p': Producer)
    requires p'.generated == p.generated
    ensures forall id :: UsedId(p', id) == UsedId(p, id)
  {
  }

  lemma ProducedStaysProduced(cat: Catalog, cfgs: seq<Config>, f: Fleet, o: Occurrence, id: Uuid, source: string)
    requires Manned(f, cfgs) && Produced(cfgs, f.producers, id, source)
    ensures Produced(cfgs, Occurs(cat, cfgs, f, o).producers, id, source)
  {
    hide Happens, Enabled, Next, UsedId;
    if o.k < |cfgs| && Admitted(f, o.h) {
      var p, f' := f.producers[o.k], Occurs(cat, cfgs, f, o);
      HappensGenerates(cat, cfgs[o.k], View(f, o.k), o.h);
      var j :| 0 <= j < |f.producers| && UsedId(f.producers[j], id) && cfgs[j].instanceLabel == source;
      if j == o.k {
        if f'.producers[j].generated == p.generated {
          SameGeneratedSameIds(p, f'.producers[j]);
        } else {
          UsedAfterDraw(cfgs[j], p, o.h.draw, o.h.now, id);
        }
      }
      assert UsedId(f'.producers[j], id);
    }
  }

  /** Later producers and more requests account for everything that earlier ones did. */
  lemma OriginGrows(cat: Catalog, cfgs: seq<Config>, f: Fleet, rows: seq<Row>, os: seq<Occurrence>, o: Occurrence)
    requires Manned(f, cfgs) && Covered(f.backend, Origin(cfgs, f.producers, rows, os))
    ensures Covered(f.backend, Origin(cfgs, Occurs(cat, cfgs, f, o).producers, rows, os + [o]))
  {
    hide Produced, StoredIn, Occurs;
    var producers := Occurs(cat, cfgs, f, o).producers;
    forall id, source | Origin(cfgs, f.producers, rows, os)(id, source)
      ensures Origin(cfgs, producers, rows, os + [o])(id, source)
    {
      if Produced(cfgs, f.producers, id, source) {
        ProducedStaysProduced(cat, cfgs, f, o, id, source);
      } else if Requested(os, id, source) {
        var i :| 0 <= i < |os| &&
                 os[i].h.Foreign? && os[i].h.payload.eventId == id && os[i].h.payload.sourceInstance == source;
        assert (os + [o])[i] == os[i];
      }
    }
    hide Origin;
    CoveredByMore(f.backend, Origin(cfgs, f.producers, rows, os), Origin(cfgs, producers, rows, os + [o]));
  }

  lemma PostIsProduced(cat: Catalog, cfgs: seq<Config>, f: Fleet, k: nat, n: nat)
    requires Manned(f, cfgs) && AllLinked(cat, cfgs, f) && k < |cfgs| && n < |f.wires[k].posts|
    ensures
      var p := f.wires[k].posts[n];
      Produced(cfgs, f.producers, p.eventId, p.sourceInstance)
  {
    hide Linked, Connected;
    PostedIsGenerated(View(f, k), n);
    WorldIsLegal(cat, cfgs[k], View(f, k));
    GeneratedIsOk(cfgs[k], f.producers[k], f.wires[k].posts[n]);
    IdIsUsed(f.producers[k], f.wires[k].posts[n]);
  }

  /** Every request and every row comes from a producer of the fleet, from the initial table, or from
      another client. */
  lemma OccursKeepsOrigins(cat: Catalog, cfgs: seq<Config>, f: Fleet, rows: seq<Row>,
                           os: seq<Occurrence>, o: Occurrence)
    requires Manned(f, cfgs) && AllLinked(cat, cfgs, f)
    requires Covered(f.backend, Origin(cfgs, f.producers, rows, os))
    ensures
      var f' := Occurs(cat, cfgs, f, o);
      Covered(f'.backend, Origin(cfgs, f'.producers, rows, os + [o]))
  {
    OriginGrows(cat, cfgs, f, rows, os, o);
    if o.k < |cfgs| && Admitted(f, o.h) {
      hide AllLinked, Happens, Step, Covered, Produced, StoredIn;
      BackendMoves(cat, cfgs[o.k], View(f, o.k), o.h);
      var a, f' := BackendAction(View(f, o.k), o.h), Occurs(cat, cfgs, f, o);
      if a.Some? {
        if o.h.Arrive? {
          PostIsProduced(cat, cfgs, f, o.k, o.h.post);
          ProducedStaysProduced(cat, cfgs, f, o, a.value.payload.eventId, a.value.payload.sourceInstance);
        }
        if o.h.Foreign? {
          assert (os + [o])[|os|] == o;
        }
        StepKeepsCovered(cat, f.backend, a.value, Origin(cfgs, f'.producers, rows, os + [o]));
      }
    }
  }

  lemma {:induction false} ChronicleHasOrigins(cat: Catalog, cfgs: seq<Config>, db: Db, os: seq<Occurrence>)
    requires ValidConfigs(cfgs) && cat.Valid() && Legal(cat, db.rows)
    requires forall k | 0 <= k < |cfgs| :: Stocked(cat, cfgs[k])
    ensures
      var f := Chronicle(cat, cfgs, db, os);
      Covered(f.backend, Origin(cfgs, f.producers, db.rows, os))
  {
    hide Stocked, Occurs, Produced, Requested;
    if os != [] {
      hide Covered, Origin, AllLinked, Strangers;
      ChronicleHasOrigins(cat, cfgs, db, Init(os));
      ChronicleIsLinked(cat, cfgs, db, Init(os));
      OccursKeepsOrigins(cat, cfgs, Chronicle(cat, cfgs, db, Init(os)), db.rows, Init(os), Last(os));
      assert Init(os) + [Last(os)] == os;
    }
  }

  // ---------------------------------------------------------------- removing a run

  /** Nobody but the fleet sends requests of the run. */
  predicate OnlyFleetRuns(os: seq<Occurrence>, runTag: string) {
    forall o | o in os && o.h.Foreign? :: !FromRun(runTag, o.h.payload)
  }

  /** A row of the run was generated by the fleet. */
  lemma RunRowIsProduced(cat: Catalog, cfgs: seq<Config>, db: Db, os: seq<Occurrence>, runTag: string, row: Row)
    requires ValidConfigs(cfgs) && cat.Valid() && Legal(cat, db.rows)
    requires forall k | 0 <= k < |cfgs| :: Stocked(cat, cfgs[k])
    requires NoRunRows(db.rows, runTag) && OnlyFleetRuns(os, runTag)
    requires row in Chronicle(cat, cfgs, db, os).backend.db.rows && OfRun(runTag, row)
    ensures Produced(cfgs, Chronicle(cat, cfgs, db, os).producers, row.eventId, row.sourceInstance)
  {
    hide Stocked, Chronicle, Like, Produced;
    ChronicleHasOrigins(cat, cfgs, db, os);
    var f := Chronicle(cat, cfgs, db, os);
    assert Origin(cfgs, f.producers, db.rows, os)(row.eventId, row.sourceInstance);
    assert forall i | 0 <= i < |db.rows| :: db.rows[i] in db.rows;
  }

  /** A row under a producer's id, or referring to one, carries that producer's label. */
  lemma RowCarriesLabel(cat: Catalog, cfg: Config, w: World, i: nat)
    requires Linked(cat, cfg, w) && i < |w.backend.db.rows| && RowTouches(w.producer, w.backend.db.rows[i])
    ensures w.backend.db.rows[i].sourceInstance == cfg.instanceLabel
  {
    hide Inv, OriginalsAreFound, SessionsAreOurs, EventOk, Backs, RowTouches;
    var g :| g in w.producer.generated && IsRecordOf(cat, w.backend.db.rows[i], g);
    assert PayloadOk(cfg, w.producer, g);
  }

  lemma {:induction false} ChronicleIsLegal(cat: Catalog, cfgs: seq<Config>, db: Db, os: seq<Occurrence>)
    requires ValidConfigs(cfgs) && cat.Valid() && Legal(cat, db.rows)
    ensures
      var s := Chronicle(cat, cfgs, db, os).backend;
      Inv(cat, s) && Legal(cat, s.db.rows) && db.rows <= s.db.rows
  {
    if os == [] {
      FreshIsInv(cat, db);
    } else {
      hide Inv, Happens, Step;
      var f, o := Chronicle(cat, cfgs, db, Init(os)), Last(os);
      ChronicleIsLegal(cat, cfgs, db, Init(os));
      if o.k < |cfgs| && Admitted(f, o.h) {
        BackendMoves(cat, cfgs[o.k], View(f, o.k), o.h);
        var a := BackendAction(View(f, o.k), o.h);
        if a.Some? {
          StepKeepsInv(cat, f.backend, a.value);
          StepExtendsTable(cat, f.backend, a.value);
        }
      }
      InvIsLegal(cat, Chronicle(cat, cfgs, db, os).backend);
    }
  }

  /** Whatever any number of producers, their networks, other clients and failures did: as long as
      the run's tag was new and only the fleet uses it, no refund from outside the run refers to
      one of its sales, so the cleanup transaction commits. */
  lemma RunIsRemovable(cat: Catalog, cfgs: seq<Config>, db: Db, os: seq<Occurrence>, runTag: string,
                       stores: Stores, snapshot: seq<SnapshotEntry>)
    requires ValidConfigs(cfgs) && cat.Valid() && Legal(cat, db.rows)
    requires forall k | 0 <= k < |cfgs| :: Stocked(cat, cfgs[k])
    requires NoRunRows(db.rows, runTag) && OnlyFleetRuns(os, runTag)
    ensures
      var rows := Chronicle(cat, cfgs, db, os).backend.db.rows;
      !OutsideRefund(rows, runTag) && Transaction(Tables(rows, stores), runTag, snapshot).Some?
  {
    var f := Chronicle(cat, cfgs, db, os);
    var rows := f.backend.db.rows;
    ChronicleIsLinked(cat, cfgs, db, os);
    hide Linked, Connected, Chronicle, Stocked, Like, UsedId, Transaction, Strangers, NoRunRows, OnlyFleetRuns;
    forall i, j | 0 <= i < |rows| && 0 <= j < |rows| && OfRun(runTag, rows[j])
                  && rows[i].originalEventId == Some(rows[j].eventId)
      ensures OfRun(runTag, rows[i])
    {
      RunRowIsProduced(cat, cfgs, db, os, runTag, rows[j]);
      var k :| 0 <= k < |f.producers| && UsedId(f.producers[k], rows[j].eventId)
               && cfgs[k].instanceLabel == rows[j].sourceInstance;
      RowCarriesLabel(cat, cfgs[k], View(f, k), i);
    }
    ChronicleIsLegal(cat, cfgs, db, os);
    TransactionSucceedsExactly(cat, Tables(rows, stores), runTag, snapshot);
  }
}
