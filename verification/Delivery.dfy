/** The producer and the backend together, over a network that loses, delays and repeats requests
    and responses, with other clients at work on other events. */
module Delivery {
  import opened Events
  import opened Sessions
  import opened Refinement
  import opened Guarantees
  import opened Transport
  import opened Settings
  import opened Ledgers
  import opened Producers
  import opened Accounts

  /** What the network knows.  Any POST can arrive at any time, and again; the answer of a session
      goes back to the POST that the session serves. */
  datatype Wires = Wires(
    posts: seq<Payload>,         // the payload of each POST, in order
    replays: set<nat>,           // the POSTs that replay a delivered event
    latest: map<nat, nat>,       // the latest POST of each worker
    serves: map<nat, nat>,       // the POST each session serves
    heard: seq<nat>)             // the sessions whose receipts reached a worker

  datatype World = World(backend: State, producer: Producer, wires: Wires)

  datatype Happening =
    | Produce(draw: Draw, now: Instant)
    | Unblock                                                        // the blocked put goes through
    | Fetch(worker: nat)                                             // an idle worker takes an event
    | Post(worker: nat)                                              // a worker posts what it holds
    | Lost(worker: nat)                                              // that POST ends without a usable answer
    | Arrive(post: nat, now: Instant)                                // a POST reaches the backend
    | Foreign(payload: Payload, now: Instant)                        // another client's request
    | Execute(i: nat)                                                // a session's next statement
    | Crash(i: nat)                                                  // a session is aborted
    | Cut(i: nat)                                                    // a session commits and cannot tell
    | Respond(worker: nat, i: nat, replay: bool)                     // session i's answer reaches a worker

  /** The producer's store and products are seeded. */
  predicate Stocked(cat: Catalog, cfg: Config) {
    cfg.storeCode in cat.storeIds && forall k | 0 <= k < |PRODUCT_CATALOG| :: PRODUCT_CATALOG[k].sku in cat.productIds
  }

  /** A version 4 UUID nobody has used, as an event id or as a reference. */
  predicate FreshId(w: World, id: Uuid) {
    && (forall i | 0 <= i < |w.backend.db.rows| ::
          w.backend.db.rows[i].eventId != id && w.backend.db.rows[i].originalEventId != Some(id))
    && (forall i | 0 <= i < |w.backend.sessions| ::
          w.backend.sessions[i].payload.eventId != id && w.backend.sessions[i].payload.OriginalId() != Some(id))
  }

  /** The payload uses an id of the producer, or refunds one of its sales. */
  predicate Touches(p: Producer, g: Payload) {
    UsedId(p, g.eventId) || (g.kind.Refund? && UsedId(p, g.kind.originalEventId))
  }

  function Holding(w: World, worker: nat): Option<Event> {
    if worker < |w.producer.workers| && !w.producer.workers[worker].Idle?
    then Some(w.producer.workers[worker].event) else None
  }

  function MoveIf(cfg: Config, p: Producer, m: Move): Producer {
    if Enabled(cfg, p, m) then Next(cfg, p, m) else p
  }

  function GiveUp(p: Producer, worker: nat): Move
    requires IsBusy(p, worker)
  {
    if p.workers[worker].Awaiting? then Fail(worker) else ReplayDone(worker, None)
  }

  /** What a worker does about the outcome of its POST. */
  function Reply(cfg: Config, p: Producer, worker: nat, reaction: Reaction, replay: bool): Move
    requires IsBusy(p, worker)
  {
    match reaction
    case TryAgain => if cfg.LimitReached(p.workers[worker].posts) then GiveUp(p, worker) else Retry(worker)
    case Delivered(accepted) =>
      if p.workers[worker].Awaiting? then Deliver(worker, accepted, replay) else ReplayDone(worker, Some(accepted))
    case Rejected => GiveUp(p, worker)
  }

  function Handle(cfg: Config, p: Producer, worker: nat, reaction: Reaction, replay: bool): Producer {
    if IsOpen(p, worker) then MoveIf(cfg, p, Reply(cfg, p, worker, reaction, replay)) else p
  }

  /** Session i serves the worker's open POST, and is done with it. */
  predicate Answers(w: World, i: nat, worker: nat) {
    && IsOpen(w.producer, worker) && worker in w.wires.latest
    && i in w.wires.serves && w.wires.serves[i] == w.wires.latest[worker]
    && i < |w.backend.sessions| && Finished(w.backend.sessions[i])
  }

  /** The wires after one more POST of this worker. */
  function AfterPost(wires: Wires, worker: nat, w: Worker): Wires
    requires !w.Idle?
  {
    var n := |wires.posts|;
    Wires(wires.posts + [w.event.payload], wires.replays + if w.Replaying? then {n} else {},
          wires.latest[worker := n], wires.serves, wires.heard)
  }

  function Happens(cat: Catalog, cfg: Config, w: World, h: Happening): World {
    match h
    case Produce(d, now) =>
      if FreshId(w, d.eventId) then w.(producer := MoveIf(cfg, w.producer, Generate(d, now))) else w
    case Unblock => w.(producer := MoveIf(cfg, w.producer, ResumePut))
    case Fetch(worker) => w.(producer := MoveIf(cfg, w.producer, Take(worker)))
    case Post(worker) =>
      if Enabled(cfg, w.producer, Send(worker))
      then w.(producer := Next(cfg, w.producer, Send(worker)),
              wires := AfterPost(w.wires, worker, w.producer.workers[worker]))
      else w
    case Lost(worker) => w.(producer := Handle(cfg, w.producer, worker, React(TransportFailure), false))
    case Arrive(n, now) =>
      if n < |w.wires.posts|
      then w.(backend := Step(cat, w.backend, Start(w.wires.posts[n], now)),
              wires := w.wires.(serves := w.wires.serves[|w.backend.sessions| := n]))
      else w
    case Foreign(p, now) =>
      if !Touches(w.producer, p) then w.(backend := Step(cat, w.backend, Start(p, now))) else w
    case Execute(i) => w.(backend := Step(cat, w.backend, Advance(i)))
    case Crash(i) => w.(backend := Step(cat, w.backend, Abort(i)))
    case Cut(i) => w.(backend := Step(cat, w.backend, Sever(i)))
    case Respond(worker, i, replay) =>
      if !Answers(w, i, worker) then w
      else
        var reaction := React(Answer(w.backend.sessions[i].pc.verdict));
        var m := Reply(cfg, w.producer, worker, reaction, replay);
        var counted := reaction.Delivered? && Enabled(cfg, w.producer, m);
        w.(producer := Handle(cfg, w.producer, worker, reaction, replay),
           wires := if counted then w.wires.(heard := w.wires.heard + [i]) else w.wires)
  }

  function History(cat: Catalog, cfg: Config, db: Db, hs: seq<Happening>): World
    requires cfg.Valid()
  {
    if hs == [] then World(Fresh(db), Started(cfg), Wires([], {}, map[], map[], []))
    else Happens(cat, cfg, History(cat, cfg, db, Init(hs)), Last(hs))
  }

  // ---------------------------------------------------------------- one happening, in parts

  /** What a happening does to the backend. */
  function BackendAction(w: World, h: Happening): Option<Action> {
    match h
    case Arrive(n, now) => if n < |w.wires.posts| then Some(Start(w.wires.posts[n], now)) else None
    case Foreign(p, now) => if !Touches(w.producer, p) then Some(Start(p, now)) else None
    case Execute(i) => Some(Advance(i))
    case Crash(i) => Some(Abort(i))
    case Cut(i) => Some(Sever(i))
    case _ => None
  }

  lemma BackendMoves(cat: Catalog, cfg: Config, w: World, h: Happening)
    ensures
      var w', a := Happens(cat, cfg, w, h), BackendAction(w, h);
      && w'.backend == (if a.Some? then Step(cat, w.backend, a.value) else w.backend)
      && (a.Some? ==> w'.producer == w.producer)
  {
    hide Step, MoveIf, Handle, Next, Enabled, FreshId, Answers, Touches;
  }

  lemma GeneratedIsOnly(cfg: Config, p: Producer, m: Move)
    requires Enabled(cfg, p, m)
    ensures !m.Generate? ==> Next(cfg, p, m).generated == p.generated
  {
  }

  lemma HandleGeneratesNothing(cfg: Config, p: Producer, worker: nat, reaction: Reaction, replay: bool)
    ensures Handle(cfg, p, worker, reaction, replay).generated == p.generated
  {
    hide Enabled, Next;
    if IsOpen(p, worker) {
      var m := Reply(cfg, p, worker, reaction, replay);
      if Enabled(cfg, p, m) {
        GeneratedIsOnly(cfg, p, m);
      }
    }
  }

  /** Only producing generates, and it generates one payload with the drawn id. */
  lemma HappensGenerates(cat: Catalog, cfg: Config, w: World, h: Happening)
    ensures
      var p, p' := w.producer, Happens(cat, cfg, w, h).producer;
      || p'.generated == p.generated
      || (h.Produce? && Enabled(cfg, p, Generate(h.draw, h.now)) && p' == Next(cfg, p, Generate(h.draw, h.now)))
  {
    hide Step, Enabled, Next, FreshId, Touches, Reply;
    var p := w.producer;
    match h
    case Produce(_, _) =>
    case Unblock => if Enabled(cfg, p, ResumePut) { GeneratedIsOnly(cfg, p, ResumePut); }
    case Fetch(worker) => if Enabled(cfg, p, Take(worker)) { GeneratedIsOnly(cfg, p, Take(worker)); }
    case Post(worker) => if Enabled(cfg, p, Send(worker)) { GeneratedIsOnly(cfg, p, Send(worker)); }
    case Lost(worker) => HandleGeneratesNothing(cfg, p, worker, React(TransportFailure), false);
    case Respond(worker, i, replay) =>
      if Answers(w, i, worker) {
        HandleGeneratesNothing(cfg, p, worker, React(Answer(w.backend.sessions[i].pc.verdict)), replay);
      }
    case _ =>
  }

  // ---------------------------------------------------------------- the joint invariant

  /** The row is this payload, as stored. */
  predicate Stored(cat: Catalog, rows: seq<Row>, g: Payload) {
    Find(rows, g.eventId).Some? && Recorded(cat, rows, g, Find(rows, g.eventId).value.receivedAt)
  }

  predicate RowTouches(p: Producer, r: Row) {
    UsedId(p, r.eventId) || (r.originalEventId.Some? && UsedId(p, r.originalEventId.value))
  }

  ghost predicate RowsAreOurs(cat: Catalog, p: Producer, rows: seq<Row>) {
    forall i | 0 <= i < |rows| && RowTouches(p, rows[i]) :: exists g :: g in p.generated && IsRecordOf(cat, rows[i], g)
  }

  predicate SessionsAreOurs(p: Producer, sessions: seq<Session>) {
    forall i | 0 <= i < |sessions| && Touches(p, sessions[i].payload) :: sessions[i].payload in p.generated
  }

  predicate OriginalsAreFound(p: Producer, s: State) {
    forall i | 0 <= i < |s.sessions| && s.sessions[i].payload in p.generated && Decided(s, i) ::
      !s.sessions[i].pc.verdict.OriginalSaleNotFound?
  }

  ghost predicate Linked(cat: Catalog, cfg: Config, w: World) {
    && Inv(cat, w.backend)
    && Sound(cfg, w.producer)
    && SessionsAreOurs(w.producer, w.backend.sessions)
    && RowsAreOurs(cat, w.producer, w.backend.db.rows)
    && (forall g | g in w.producer.delivered :: Stored(cat, w.backend.db.rows, g))
    && OriginalsAreFound(w.producer, w.backend)
  }

  predicate OpenPostIsKnown(p: Producer, wires: Wires, worker: nat) {
    worker in wires.latest && worker < |p.workers| && !p.workers[worker].Idle? && p.workers[worker].open ==>
      && wires.latest[worker] < |wires.posts|
      && wires.posts[wires.latest[worker]] == p.workers[worker].event.payload
      && (p.workers[worker].Replaying? ==> wires.latest[worker] in wires.replays)
  }

  /** A session that serves a replay is never accepted. */
  predicate ServesItsPost(s: State, wires: Wires, i: nat) {
    i in wires.serves ==>
      && i < |s.sessions| && wires.serves[i] < |wires.posts|
      && s.sessions[i].payload == wires.posts[wires.serves[i]]
      && (wires.serves[i] in wires.replays ==> !AcceptedHere(s, i))
  }

  /** Posts carry generated payloads, and replays delivered ones. */
  ghost predicate Connected(w: World) {
    && (forall g | g in w.wires.posts :: g in w.producer.generated)
    && (forall n | n in w.wires.replays :: n < |w.wires.posts| && w.wires.posts[n] in w.producer.delivered)
    && (forall i | 0 <= i < |w.producer.workers| && w.producer.workers[i].Replaying? ::
          w.producer.workers[i].event.payload in w.producer.delivered)
    && (forall worker: nat :: OpenPostIsKnown(w.producer, w.wires, worker))
    && (forall i: nat :: ServesItsPost(w.backend, w.wires, i))
  }

  // ---------------------------------------------------------------- backend steps

  lemma StoredIsStable(cat: Catalog, rows: seq<Row>, later: seq<Row>, g: Payload)
    requires Legal(cat, later) && rows <= later && Stored(cat, rows, g)
    ensures Stored(cat, later, g)
  {
    FindIsStable(cat, rows, later, g.eventId);
  }

  /** The sale a generated refund refers to has been delivered, so it is in the table. */
  lemma SaleOfRefundIsStored(cat: Catalog, cfg: Config, w: World, g: Payload) returns (sale: Payload)
    requires Linked(cat, cfg, w) && g in w.producer.generated && g.kind.Refund?
    ensures sale in w.producer.generated && sale.kind.Sale? && sale.eventId == g.kind.originalEventId
    ensures Stored(cat, w.backend.db.rows, sale) && PayloadOk(cfg, w.producer, sale)
    ensures g.kind.originalEventId in w.producer.book && sale.productSku == g.productSku
    ensures exists i: nat :: Backs(w.producer, sale.eventId, i) && w.producer.generated[i] == sale
  {
    assert PayloadOk(cfg, w.producer, g);
    var i: nat :| Backs(w.producer, g.kind.originalEventId, i);
    sale := w.producer.generated[i];
  }

  lemma GeneratedIsKnown(cat: Catalog, cfg: Config, p: Producer, g: Payload)
    requires Stocked(cat, cfg) && PayloadOk(cfg, p, g)
    ensures cat.Knows(g) && g.Valid()
  {
  }

  lemma StepDecides(cat: Catalog, s: State, a: Action, i: nat)
    requires Inv(cat, s) && i < |s.sessions| && !Decided(s, i) && Decided(Step(cat, s, a), i)
    requires a.Advance? || (a.Sever? && !Step(cat, s, a).sessions[i].pc.verdict.Aborted?)
    ensures Step(cat, s, a).sessions[i] == Moved(cat, s.db.rows, s.sessions[i])
  {
    hide Inv, Moved;
  }

  lemma NotFoundMoves(cat: Catalog, s: State, i: nat)
    requires Inv(cat, s) && i < |s.sessions| && !Decided(s, i)
    requires
      var pc := Moved(cat, s.db.rows, s.sessions[i]).pc;
      (pc.Closing? || pc.Done?) && pc.verdict.OriginalSaleNotFound?
    ensures s.sessions[i].pc.Locking?
    ensures s.sessions[i].payload.kind == Refund(s.sessions[i].pc.saleId)
    ensures Find(s.db.rows, s.sessions[i].pc.saleId).None?
  {
    hide Inv;
    SessionIsOk(cat, s, i);
    var t := s.sessions[i];
    if Find(s.db.rows, t.payload.eventId).Some? {
      ClassifiedHasEvidence(cat, s.db.rows, t.payload);
    }
  }

  /** Statements that decide "original not found" read a table without the original. */
  lemma NotFoundComesFromLocking(cat: Catalog, s: State, a: Action, i: nat)
    requires Inv(cat, s) && (a.Advance? || a.Sever?)
    requires Decided(Step(cat, s, a), i) && Step(cat, s, a).sessions[i].pc.verdict.OriginalSaleNotFound?
    requires Decided(s, i) ==> !s.sessions[i].pc.verdict.OriginalSaleNotFound?
    ensures i < |s.sessions| && s.sessions[i].payload == Step(cat, s, a).sessions[i].payload
    ensures s.sessions[i].payload.kind.Refund?
    ensures Find(s.db.rows, s.sessions[i].payload.kind.originalEventId).None?
  {
    hide Inv;
    UndecidedExists(cat, s, a, i);
    var t := s.sessions[i];
    assert SessionOk(cat, s.db.rows, t) by {
      SessionIsOk(cat, s, i);
    }
    if !Decided(s, i) {
      StepDecides(cat, s, a, i);
      NotFoundMoves(cat, s, i);
    }
  }

  /** A commit adds a row that is ours if its session is. */
  lemma CommitKeepsRowsOurs(cat: Catalog, cfg: Config, w: World, i: nat)
    requires Linked(cat, cfg, w) && i < |w.backend.sessions|
    ensures RowsAreOurs(cat, w.producer, Written(w.backend.db, w.backend.sessions[i]).rows)
  {
    hide Inv, Sound, OriginalsAreFound, Stored;
    var t := w.backend.sessions[i];
    if t.pc.Committing? {
      var rows, row := w.backend.db.rows, RowFor(t.payload, t.pc.storeId, t.pc.productId, t.now);
      if RowTouches(w.producer, row) {
        assert Touches(w.producer, t.payload);
        SessionIsOk(cat, w.backend, i);
        assert IsRecordOf(cat, row, t.payload);
      }
      forall j | 0 <= j < |rows + [row]| && RowTouches(w.producer, (rows + [row])[j])
        ensures exists g :: g in w.producer.generated && IsRecordOf(cat, (rows + [row])[j], g)
      {
        if j < |rows| {
          assert (rows + [row])[j] == rows[j];
        }
      }
    }
  }

  lemma InvIsLegal(cat: Catalog, s: State)
    requires Inv(cat, s)
    ensures cat.Valid() && Legal(cat, s.db.rows)
  {
  }

  lemma PayloadStays(cat: Catalog, s: State, a: Action, i: nat)
    requires i < |Step(cat, s, a).sessions|
    ensures i < |s.sessions| ==> Step(cat, s, a).sessions[i].payload == s.sessions[i].payload
    ensures i >= |s.sessions| ==> a.Start? && Step(cat, s, a).sessions[i].payload == a.payload
    ensures i >= |s.sessions| ==> !Decided(Step(cat, s, a), i)
  {
  }

  lemma StepKeepsSessionsOurs(cat: Catalog, cfg: Config, w: World, a: Action)
    requires SessionsAreOurs(w.producer, w.backend.sessions)
    requires a.Start? ==> a.payload in w.producer.generated || !Touches(w.producer, a.payload)
    ensures SessionsAreOurs(w.producer, Step(cat, w.backend, a).sessions)
  {
    hide Touches;
    var s, s' := w.backend, Step(cat, w.backend, a);
    forall i | 0 <= i < |s'.sessions| && Touches(w.producer, s'.sessions[i].payload)
      ensures s'.sessions[i].payload in w.producer.generated
    {
      PayloadStays(cat, s, a, i);
    }
  }

  lemma StepKeepsRowsOurs(cat: Catalog, cfg: Config, w: World, a: Action)
    requires Linked(cat, cfg, w)
    ensures RowsAreOurs(cat, w.producer, Step(cat, w.backend, a).db.rows)
  {
    hide Inv, Sound, Stored, RowTouches, Moved, Written, Waits;
    if (a.Advance? || a.Sever?) && a.i < |w.backend.sessions| {
      CommitKeepsRowsOurs(cat, cfg, w, a.i);
    }
  }

  lemma StoredIsFound(cat: Catalog, rows: seq<Row>, g: Payload)
    requires Stored(cat, rows, g)
    ensures Find(rows, g.eventId).Some?
  {
  }

  lemma StepKeepsOriginalsFound(cat: Catalog, cfg: Config, w: World, a: Action)
    requires Linked(cat, cfg, w)
    ensures OriginalsAreFound(w.producer, Step(cat, w.backend, a))
  {
    hide Inv, Sound, Stored, Touches, RowTouches, Moved, Written, Waits;
    var s, s' := w.backend, Step(cat, w.backend, a);
    forall i | 0 <= i < |s'.sessions| && s'.sessions[i].payload in w.producer.generated && Decided(s', i)
      ensures !s'.sessions[i].pc.verdict.OriginalSaleNotFound?
    {
      PayloadStays(cat, s, a, i);
      if s'.sessions[i].pc.verdict.OriginalSaleNotFound? && (a.Advance? || a.Sever?) {
        NotFoundComesFromLocking(cat, s, a, i);
        var sale := SaleOfRefundIsStored(cat, cfg, w, s.sessions[i].payload);
        StoredIsFound(cat, s.db.rows, sale);
      }
    }
  }

  lemma BackendStepIsLinked(cat: Catalog, cfg: Config, w: World, a: Action)
    requires Linked(cat, cfg, w) && Stocked(cat, cfg)
    requires a.Start? ==> a.payload in w.producer.generated || !Touches(w.producer, a.payload)
    ensures Linked(cat, cfg, w.(backend := Step(cat, w.backend, a)))
  {
    hide Sound, Inv, Stored, Touches, RowTouches;
    var w' := w.(backend := Step(cat, w.backend, a));
    StepKeepsInv(cat, w.backend, a);
    StepExtendsTable(cat, w.backend, a);
    InvIsLegal(cat, w'.backend);
    forall g | g in w.producer.delivered ensures Stored(cat, w'.backend.db.rows, g) {
      StoredIsStable(cat, w.backend.db.rows, w'.backend.db.rows, g);
    }
    StepKeepsSessionsOurs(cat, cfg, w, a);
    StepKeepsRowsOurs(cat, cfg, w, a);
    StepKeepsOriginalsFound(cat, cfg, w, a);
  }

  /** Whoever serves a stored payload cannot be accepted any more. */
  lemma StoredIsNotAccepted(cat: Catalog, s: State, a: Action, i: nat)
    requires Inv(cat, s) && i < |s.sessions| && Find(s.db.rows, s.sessions[i].payload.eventId).Some?
    requires !AcceptedHere(s, i)
    ensures !AcceptedHere(Step(cat, s, a), i)
  {
    hide Inv;
    SessionIsOk(cat, s, i);
  }

  lemma BackendStepIsConnected(cat: Catalog, cfg: Config, w: World, a: Action)
    requires Linked(cat, cfg, w) && Connected(w)
    ensures Connected(w.(backend := Step(cat, w.backend, a)))
  {
    hide Inv, Sound, Step, AcceptedHere, SessionsAreOurs, RowsAreOurs, OriginalsAreFound, OpenPostIsKnown;
    var s, s', wires := w.backend, Step(cat, w.backend, a), w.wires;
    forall i: nat | i in wires.serves
      ensures ServesItsPost(s', wires, i)
    {
      assert ServesItsPost(s, wires, i);
      StepKeepsPayload(cat, s, a, i);
      if wires.serves[i] in wires.replays {
        StoredIsFound(cat, s.db.rows, s.sessions[i].payload);
        StoredIsNotAccepted(cat, s, a, i);
      }
    }
  }

  lemma GeneratedIsOk(cfg: Config, p: Producer, g: Payload)
    requires Sound(cfg, p) && g in p.generated
    ensures PayloadOk(cfg, p, g) && g.Valid()
  {
  }

  /** A new request of the producer: its session serves the POST that brought it. */
  lemma ArriveIsConnected(cat: Catalog, cfg: Config, w: World, n: nat, now: Instant)
    requires Linked(cat, cfg, w) && Connected(w) && n < |w.wires.posts|
    ensures Connected(Happens(cat, cfg, w, Arrive(n, now)))
  {
    var w' := Happens(cat, cfg, w, Arrive(n, now));
    assert w.wires.posts[n] in w.producer.generated;
    GeneratedIsOk(cfg, w.producer, w.wires.posts[n]);
    BackendStepIsConnected(cat, cfg, w, Start(w.wires.posts[n], now));
    forall worker: nat ensures OpenPostIsKnown(w'.producer, w'.wires, worker) {
      assert OpenPostIsKnown(w.producer, w.wires, worker);
    }
    forall i: nat ensures ServesItsPost(w'.backend, w'.wires, i) {
      assert ServesItsPost(w'.backend, w.wires, i);
    }
  }

  // ---------------------------------------------------------------- producer steps

  /** The producer moved without generating or delivering anything new to the backend's view. */
  lemma QuietMoveIsLinked(cat: Catalog, cfg: Config, w: World, p': Producer)
    requires Linked(cat, cfg, w) && Sound(cfg, p')
    requires p'.generated == w.producer.generated
    requires forall g | g in p'.delivered :: g in w.producer.delivered || Stored(cat, w.backend.db.rows, g)
    ensures Linked(cat, cfg, w.(producer := p'))
  {
    hide Sound, Inv, Stored, IsRecordOf, Decided;
    assert forall g: Payload :: Touches(p', g) == Touches(w.producer, g);
    assert forall r: Row :: RowTouches(p', r) == RowTouches(w.producer, r);
  }

  lemma UsedAfterDraw(cfg: Config, p: Producer, d: Draw, now: Instant, id: Uuid)
    requires Enabled(cfg, p, Generate(d, now))
    ensures UsedId(Next(cfg, p, Generate(d, now)), id) <==> UsedId(p, id) || id == d.eventId
  {
    var p' := Next(cfg, p, Generate(d, now));
    assert |p'.generated| == |p.generated| + 1 && p'.generated[|p.generated|].eventId == d.eventId;
    if UsedId(p, id) {
      var i :| 0 <= i < |p.generated| && p.generated[i].eventId == id;
      assert p'.generated[i].eventId == id;
    }
    if id == d.eventId {
      assert p'.generated[|p.generated|].eventId == id;
    }
  }

  lemma DrawGrows(cfg: Config, p: Producer, d: Draw, now: Instant)
    requires Enabled(cfg, p, Generate(d, now))
    ensures
      var p' := Next(cfg, p, Generate(d, now));
      && p'.delivered == p.delivered && p'.failed == p.failed
      && (forall g | g in p.generated :: g in p'.generated)
      && forall g | g in p'.generated :: g in p.generated || g.eventId == d.eventId
  {
  }

  lemma ProduceIsLinked(cat: Catalog, cfg: Config, w: World, d: Draw, now: Instant)
    requires Linked(cat, cfg, w) && FreshId(w, d.eventId) && Enabled(cfg, w.producer, Generate(d, now))
    ensures Linked(cat, cfg, w.(producer := Next(cfg, w.producer, Generate(d, now))))
  {
    hide Sound, Inv, Stored, IsRecordOf, Decided, UsedId;
    var p, p' := w.producer, Next(cfg, w.producer, Generate(d, now));
    NextIsSound(cfg, p, Generate(d, now));
    DrawGrows(cfg, p, d, now);
    forall id ensures UsedId(p', id) <==> UsedId(p, id) || id == d.eventId {
      UsedAfterDraw(cfg, p, d, now, id);
    }
    forall i | 0 <= i < |w.backend.sessions|
      ensures w.backend.sessions[i].payload in p'.generated ==>
                w.backend.sessions[i].payload in p.generated
      ensures Touches(p', w.backend.sessions[i].payload) ==> Touches(p, w.backend.sessions[i].payload)
    {
      assert w.backend.sessions[i].payload.eventId != d.eventId;
      assert w.backend.sessions[i].payload.OriginalId() != Some(d.eventId);
    }
    forall i | 0 <= i < |w.backend.db.rows| && RowTouches(p', w.backend.db.rows[i])
      ensures exists g :: g in p'.generated && IsRecordOf(cat, w.backend.db.rows[i], g)
    {
      assert w.backend.db.rows[i].eventId != d.eventId;
      assert RowTouches(p, w.backend.db.rows[i]);
      var g :| g in p.generated && IsRecordOf(cat, w.backend.db.rows[i], g);
      assert g in p'.generated;
    }
  }

  /** Taking an event, unblocking, and every answer, from the backend's point of view. */
  lemma HandledIsLinked(cat: Catalog, cfg: Config, w: World, m: Move)
    requires Linked(cat, cfg, w) && Enabled(cfg, w.producer, m) && !m.Generate?
    requires m.Deliver? ==> Stored(cat, w.backend.db.rows, w.producer.workers[m.worker].event.payload)
    ensures Linked(cat, cfg, w.(producer := Next(cfg, w.producer, m)))
  {
    hide Sound, Inv, Stored, Touches, RowTouches, IsRecordOf;
    NextIsSound(cfg, w.producer, m);
    QuietMoveIsLinked(cat, cfg, w, Next(cfg, w.producer, m));
  }

  /** No move but a POST opens a worker, and none sends a delivered event to be replayed but its
      delivery. */
  lemma MoveIsConnected(cfg: Config, w: World, m: Move)
    requires Connected(w) && Enabled(cfg, w.producer, m) && !m.Send?
    ensures Connected(w.(producer := Next(cfg, w.producer, m)))
  {
    hide MakeEvent, ServesItsPost, CommitDelivery, RollbackDelivery, CountReceipt;
    var p, p' := w.producer, Next(cfg, w.producer, m);
    forall worker: nat ensures OpenPostIsKnown(p', w.wires, worker) {
      assert OpenPostIsKnown(p, w.wires, worker);
    }
  }

  lemma MorePostsServe(s: State, wires: Wires, worker: nat, w: Worker, i: nat)
    requires ServesItsPost(s, wires, i) && !w.Idle?
    ensures ServesItsPost(s, AfterPost(wires, worker, w), i)
  {
  }

  lemma MorePostsAreKnown(cfg: Config, p: Producer, wires: Wires, worker: nat, other: nat)
    requires Enabled(cfg, p, Send(worker)) && OpenPostIsKnown(p, wires, other)
    ensures OpenPostIsKnown(Next(cfg, p, Send(worker)), AfterPost(wires, worker, p.workers[worker]), other)
  {
  }

  lemma PostIsConnected(cat: Catalog, cfg: Config, w: World, worker: nat)
    requires Linked(cat, cfg, w) && Connected(w) && Enabled(cfg, w.producer, Send(worker))
    ensures Connected(Happens(cat, cfg, w, Post(worker)))
  {
    hide Inv, RowsAreOurs, SessionsAreOurs, OriginalsAreFound, OpenPostIsKnown, ServesItsPost;
    var w', e := Happens(cat, cfg, w, Post(worker)), w.producer.workers[worker].event;
    assert e.payload in w.producer.generated by {
      assert EventOk(w.producer, e);
    }
    hide EventOk, Sound;
    forall other: nat ensures OpenPostIsKnown(w'.producer, w'.wires, other) {
      MorePostsAreKnown(cfg, w.producer, w.wires, worker, other);
    }
    forall i: nat ensures ServesItsPost(w'.backend, w'.wires, i) {
      MorePostsServe(w.backend, w.wires, worker, w.producer.workers[worker], i);
    }
  }

  /** The session that answers a worker has the payload the worker holds. */
  lemma AnswerIsForHeld(w: World, i: nat, worker: nat)
    requires Connected(w) && Answers(w, i, worker)
    ensures Holding(w, worker).Some? && w.backend.sessions[i].payload == Holding(w, worker).value.payload
    ensures w.producer.workers[worker].Replaying? ==> !AcceptedHere(w.backend, i)
  {
    assert OpenPostIsKnown(w.producer, w.wires, worker) && ServesItsPost(w.backend, w.wires, i);
  }

  lemma ReceiptIsStored(cat: Catalog, cfg: Config, w: World, i: nat, worker: nat)
    requires Linked(cat, cfg, w) && Connected(w) && Answers(w, i, worker)
    requires React(Answer(w.backend.sessions[i].pc.verdict)).Delivered?
    ensures Holding(w, worker).Some? && Stored(cat, w.backend.db.rows, Holding(w, worker).value.payload)
  {
    hide Sound, Inv;
    AnswersAreUnderstood(w.backend.sessions[i].pc.verdict);
    AnswerIsForHeld(w, i, worker);
    ReceiptMeansRecorded(cat, w.backend, i);
  }

  lemma AnswerIsLinked(cat: Catalog, cfg: Config, w: World, worker: nat, reaction: Reaction, replay: bool)
    requires Linked(cat, cfg, w) && Connected(w)
    requires reaction.Delivered? && IsBusy(w.producer, worker) ==>
               Stored(cat, w.backend.db.rows, w.producer.workers[worker].event.payload)
    ensures
      var w' := w.(producer := Handle(cfg, w.producer, worker, reaction, replay));
      Linked(cat, cfg, w') && Connected(w')
  {
    hide Linked, Connected, Enabled, Next, Stored;
    var p := w.producer;
    if IsOpen(p, worker) {
      var m := Reply(cfg, p, worker, reaction, replay);
      if Enabled(cfg, p, m) {
        HandledIsLinked(cat, cfg, w, m);
        MoveIsConnected(cfg, w, m);
      }
    }
  }

  lemma WiresAreApart(cat: Catalog, cfg: Config, w: World, wires: Wires)
    ensures Linked(cat, cfg, w.(wires := wires)) == Linked(cat, cfg, w)
  {
  }

  lemma PostIsLinked(cat: Catalog, cfg: Config, w: World, worker: nat)
    requires Linked(cat, cfg, w) && Connected(w) && Enabled(cfg, w.producer, Send(worker))
    ensures Linked(cat, cfg, Happens(cat, cfg, w, Post(worker))) && Connected(Happens(cat, cfg, w, Post(worker)))
  {
    HandledIsLinked(cat, cfg, w, Send(worker));
    PostIsConnected(cat, cfg, w, worker);
    hide Linked, Connected, Next;
    WiresAreApart(cat, cfg, w.(producer := Next(cfg, w.producer, Send(worker))),
                       AfterPost(w.wires, worker, w.producer.workers[worker]));
  }

  lemma PostedIsGenerated(w: World, n: nat)
    requires Connected(w) && n < |w.wires.posts|
    ensures w.wires.posts[n] in w.producer.generated
  {
  }

  lemma ArriveIsLinked(cat: Catalog, cfg: Config, w: World, n: nat, now: Instant)
    requires Linked(cat, cfg, w) && Connected(w) && Stocked(cat, cfg) && n < |w.wires.posts|
    ensures
      var w' := Happens(cat, cfg, w, Arrive(n, now));
      Linked(cat, cfg, w') && Connected(w')
  {
    PostedIsGenerated(w, n);
    hide Linked, Connected, Step, Stocked;
    BackendStepIsLinked(cat, cfg, w, Start(w.wires.posts[n], now));
    ArriveIsConnected(cat, cfg, w, n, now);
    WiresAreApart(cat, cfg, w.(backend := Step(cat, w.backend, Start(w.wires.posts[n], now))),
                       w.wires.(serves := w.wires.serves[|w.backend.sessions| := n]));
  }

  /** A step of the backend alone. */
  lemma BackendHappeningIsLinked(cat: Catalog, cfg: Config, w: World, a: Action)
    requires Linked(cat, cfg, w) && Connected(w) && Stocked(cat, cfg)
    requires a.Start? ==> !Touches(w.producer, a.payload)
    ensures
      var w' := w.(backend := Step(cat, w.backend, a));
      Linked(cat, cfg, w') && Connected(w')
  {
    hide Linked, Connected, Step, Stocked;
    BackendStepIsLinked(cat, cfg, w, a);
    BackendStepIsConnected(cat, cfg, w, a);
  }

  /** A move of the producer alone. */
  lemma MoveIsLinked(cat: Catalog, cfg: Config, w: World, m: Move)
    requires Linked(cat, cfg, w) && Connected(w) && (m.ResumePut? || m.Take?)
    ensures
      var w' := w.(producer := MoveIf(cfg, w.producer, m));
      Linked(cat, cfg, w') && Connected(w')
  {
    hide Linked, Connected, Enabled, Next;
    if Enabled(cfg, w.producer, m) {
      HandledIsLinked(cat, cfg, w, m);
      MoveIsConnected(cfg, w, m);
    }
  }

  lemma HearingIsHarmless(w: World, heard: seq<nat>)
    requires Connected(w)
    ensures Connected(w.(wires := w.wires.(heard := heard)))
  {
    var w' := w.(wires := w.wires.(heard := heard));
    forall worker: nat ensures OpenPostIsKnown(w'.producer, w'.wires, worker) {
      assert OpenPostIsKnown(w.producer, w.wires, worker);
    }
    forall i: nat ensures ServesItsPost(w'.backend, w'.wires, i) {
      assert ServesItsPost(w.backend, w.wires, i);
    }
  }

  lemma RespondIsLinked(cat: Catalog, cfg: Config, w: World, worker: nat, i: nat, replay: bool)
    requires Linked(cat, cfg, w) && Connected(w) && Answers(w, i, worker)
    ensures
      var w' := Happens(cat, cfg, w, Respond(worker, i, replay));
      Linked(cat, cfg, w') && Connected(w')
  {
    hide Linked, Connected, Enabled, Next, Handle, Reply;
    var reaction := React(Answer(w.backend.sessions[i].pc.verdict));
    if reaction.Delivered? {
      ReceiptIsStored(cat, cfg, w, i, worker);
    }
    AnswerIsLinked(cat, cfg, w, worker, reaction, replay);
    var handled := w.(producer := Handle(cfg, w.producer, worker, reaction, replay));
    WiresAreApart(cat, cfg, handled, w.wires.(heard := w.wires.heard + [i]));
    HearingIsHarmless(handled, w.wires.heard + [i]);
  }

  lemma HappensIsLinked(cat: Catalog, cfg: Config, w: World, h: Happening)
    requires Linked(cat, cfg, w) && Connected(w) && Stocked(cat, cfg)
    ensures Linked(cat, cfg, Happens(cat, cfg, w, h)) && Connected(Happens(cat, cfg, w, h))
  {
    hide Linked, Connected, Enabled, Next, Step, FreshId, Stocked, Handle;
    match h
    case Produce(d, now) =>
      if FreshId(w, d.eventId) && Enabled(cfg, w.producer, Generate(d, now)) {
        ProduceIsLinked(cat, cfg, w, d, now);
        MoveIsConnected(cfg, w, Generate(d, now));
      }
    case Unblock => MoveIsLinked(cat, cfg, w, ResumePut);
    case Fetch(worker) => MoveIsLinked(cat, cfg, w, Take(worker));
    case Post(worker) =>
      if Enabled(cfg, w.producer, Send(worker)) {
        PostIsLinked(cat, cfg, w, worker);
      }
    case Lost(worker) => AnswerIsLinked(cat, cfg, w, worker, React(TransportFailure), false);
    case Arrive(n, now) =>
      if n < |w.wires.posts| {
        ArriveIsLinked(cat, cfg, w, n, now);
      }
    case Foreign(p, now) =>
      if !Touches(w.producer, p) {
        BackendHappeningIsLinked(cat, cfg, w, Start(p, now));
      }
    case Execute(i) => BackendHappeningIsLinked(cat, cfg, w, Advance(i));
    case Crash(i) => BackendHappeningIsLinked(cat, cfg, w, Abort(i));
    case Cut(i) => BackendHappeningIsLinked(cat, cfg, w, Sever(i));
    case Respond(worker, i, replay) =>
      if Answers(w, i, worker) {
        RespondIsLinked(cat, cfg, w, worker, i, replay);
      }
  }

  lemma {:induction false} HistoryIsLinked(cat: Catalog, cfg: Config, db: Db, hs: seq<Happening>)
    requires cfg.Valid() && cat.Valid() && Legal(cat, db.rows) && Stocked(cat, cfg)
    ensures Linked(cat, cfg, History(cat, cfg, db, hs)) && Connected(History(cat, cfg, db, hs))
  {
    if hs == [] {
      FreshIsInv(cat, db);
    } else {
      hide Linked, Connected, Stocked, Happens;
      HistoryIsLinked(cat, cfg, db, Init(hs));
      HappensIsLinked(cat, cfg, History(cat, cfg, db, Init(hs)), Last(hs));
    }
  }

  /** Every receipt of a replay is a duplicate: its event was stored before the replay was posted. */
  lemma ReplayReceiptIsDuplicate(cat: Catalog, cfg: Config, w: World, i: nat, worker: nat)
    requires Linked(cat, cfg, w) && Connected(w) && Answers(w, i, worker)
    requires w.producer.workers[worker].Replaying?
    ensures !w.backend.sessions[i].pc.verdict.Accepted?
  {
    AnswerIsForHeld(w, i, worker);
  }
}
