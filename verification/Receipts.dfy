/** What the producer's receipt counters say about the table. */
module Receipts {
  import opened Events
  import opened Sessions
  import opened Refinement
  import opened Transport
  import opened Settings
  import opened Ledgers
  import opened Producers
  import opened Accounts
  import opened Delivery
  import opened Agreement

  // ---------------------------------------------------------------- no event is delivered twice

  function UsesOf(id: Uuid): Payload -> int {
    (p: Payload) => if p.eventId == id then 1 else 0
  }

  lemma {:induction false} UsesAreNatural(ps: seq<Payload>, id: Uuid)
    ensures 0 <= Total(UsesOf(id), ps)
  {
    if ps != [] {
      UsesAreNatural(Init(ps), id);
    }
  }

  lemma {:induction false} AwaitingIsNatural(workers: seq<Worker>, id: Uuid)
    ensures 0 <= AwaitingTotal(UsesOf(id), workers)
  {
    if workers != [] {
      AwaitingIsNatural(Init(workers), id);
    }
  }

  lemma {:induction false} UsedAtMostOnce(ps: seq<Payload>, id: Uuid)
    requires IdsDiffer(ps)
    ensures Total(UsesOf(id), ps) <= 1
    ensures (forall i | 0 <= i < |ps| :: ps[i].eventId != id) ==> Total(UsesOf(id), ps) == 0
  {
    if ps != [] {
      assert forall i | 0 <= i < |Init(ps)| :: Init(ps)[i] == ps[i];
      UsedAtMostOnce(Init(ps), id);
    }
  }

  lemma OnceMeansDifferent(ps: seq<Payload>)
    requires forall id :: Total(UsesOf(id), ps) <= 1
    ensures IdsDiffer(ps)
  {
    forall i, j | 0 <= i < j < |ps| ensures ps[i].eventId != ps[j].eventId {
      var id := ps[j].eventId;
      var rest := ps[..j] + ps[j + 1..];
      TotalRemoved(UsesOf(id), ps, j);
      TotalRemoved(UsesOf(id), rest, i);
      UsesAreNatural(rest[..i] + rest[i + 1..], id);
      assert Total(UsesOf(id), ps) <= 1 && rest[i] == ps[i];
    }
  }

  lemma SoundIdsDiffer(cfg: Config, p: Producer)
    requires Sound(cfg, p)
    ensures IdsDiffer(p.generated)
  {
  }

  /** No event is delivered twice. */
  lemma DeliveredOnce(cat: Catalog, cfg: Config, db: Db, hs: seq<Happening>)
    requires cfg.Valid() && cat.Valid() && Legal(cat, db.rows) && Stocked(cat, cfg)
    ensures IdsDiffer(History(cat, cfg, db, hs).producer.delivered)
  {
    var p := History(cat, cfg, db, hs).producer;
    var moves := ProducerPlays(cat, cfg, db, hs);
    RunIsSound(cfg, moves);
    hide History, Play, Sound, IdsDiffer;
    assert IdsDiffer(p.generated) by {
      SoundIdsDiffer(cfg, p);
    }
    forall id ensures Total(UsesOf(id), p.delivered) <= 1 {
      RunConserves(UsesOf(id), cfg, moves);
      UsedAtMostOnce(p.generated, id);
      UsesAreNatural(p.failed, id);
      UsesAreNatural(Payloads(p.queue), id);
      AwaitingIsNatural(p.workers, id);
    }
    OnceMeansDifferent(p.delivered);
  }

  // ---------------------------------------------------------------- as many rows as deliveries

  predicate HasRow(rows: seq<Row>, id: Uuid) {
    exists i | 0 <= i < |rows| :: rows[i].eventId == id
  }

  /** Different payloads that are all stored need as many rows. */
  lemma {:induction false} RowForEach(ps: seq<Payload>, rows: seq<Row>)
    requires IdsDiffer(ps)
    requires forall k | 0 <= k < |ps| :: HasRow(rows, ps[k].eventId)
    ensures |ps| <= |rows|
  {
    assert |ps| > 0 ==> HasRow(rows, ps[0].eventId);
    if rows != [] {
      var rest := ps;
      if k :| 0 <= k < |ps| && ps[k].eventId == Last(rows).eventId {
        rest := ps[..k] + ps[k + 1..];
        assert forall i | 0 <= i < |rest| :: rest[i] == ps[if i < k then i else i + 1];
      }
      forall k | 0 <= k < |rest| ensures HasRow(Init(rows), rest[k].eventId) {
        assert HasRow(rows, rest[k].eventId);
        var i :| 0 <= i < |rows| && rows[i].eventId == rest[k].eventId;
        assert Init(rows)[i].eventId == rest[k].eventId;
      }
      RowForEach(rest, Init(rows));
    }
  }

  /** Nothing generated was in the table before. */
  predicate IsNewTo(rows: seq<Row>, p: Producer) {
    forall g, i | g in p.generated && 0 <= i < |rows| :: rows[i].eventId != g.eventId
  }

  lemma HappensIsNewTo(cat: Catalog, cfg: Config, rows: seq<Row>, w: World, h: Happening)
    requires rows <= w.backend.db.rows && IsNewTo(rows, w.producer)
    ensures rows <= Happens(cat, cfg, w, h).backend.db.rows && IsNewTo(rows, Happens(cat, cfg, w, h).producer)
  {
    hide Step, Enabled, Next, Answers, Touches, Reply;
    HappensGenerates(cat, cfg, w, h);
    BackendMoves(cat, cfg, w, h);
    if BackendAction(w, h).Some? {
      StepExtendsTable(cat, w.backend, BackendAction(w, h).value);
    }
    if h.Produce? && Enabled(cfg, w.producer, Generate(h.draw, h.now)) {
      DrawGrows(cfg, w.producer, h.draw, h.now);
    }
  }

  lemma {:induction false} GeneratedIsNew(cat: Catalog, cfg: Config, db: Db, hs: seq<Happening>)
    requires cfg.Valid()
    ensures
      var w := History(cat, cfg, db, hs);
      db.rows <= w.backend.db.rows && IsNewTo(db.rows, w.producer)
  {
    if hs != [] {
      hide Happens, IsNewTo;
      GeneratedIsNew(cat, cfg, db, Init(hs));
      HappensIsNewTo(cat, cfg, db.rows, History(cat, cfg, db, Init(hs)), Last(hs));
    }
  }

  // ---------------------------------------------------------------- the counters

  /** Every replay that brought a receipt is among the duplicates, and every acceptance is a
      delivery's. */
  predicate CountedApart(p: Producer) {
    && p.stats.deliberateDuplicates <= p.stats.deliveredDuplicate
    && p.stats.deliveredAccepted <= |p.delivered|
  }

  lemma MoveIsCountedApart(cfg: Config, p: Producer, m: Move)
    requires Enabled(cfg, p, m) && CountedApart(p) && !(m.ReplayDone? && m.outcome == Some(true))
    ensures CountedApart(Next(cfg, p, m))
  {
    hide MakeEvent, CommitDelivery, RollbackDelivery;
  }

  lemma HandleIsCountedApart(cfg: Config, p: Producer, worker: nat, reaction: Reaction, replay: bool)
    requires CountedApart(p)
    requires IsOpen(p, worker) && p.workers[worker].Replaying? ==> reaction != Delivered(true)
    ensures CountedApart(Handle(cfg, p, worker, reaction, replay))
  {
    hide Enabled, Next, CountedApart;
    if IsOpen(p, worker) {
      var m := Reply(cfg, p, worker, reaction, replay);
      if Enabled(cfg, p, m) {
        MoveIsCountedApart(cfg, p, m);
      }
    }
  }

  lemma MoveIfIsCountedApart(cfg: Config, p: Producer, m: Move)
    requires CountedApart(p) && !m.ReplayDone?
    ensures CountedApart(MoveIf(cfg, p, m))
  {
    hide Enabled, Next, CountedApart;
    if Enabled(cfg, p, m) {
      MoveIsCountedApart(cfg, p, m);
    }
  }

  lemma HappensIsCountedApart(cat: Catalog, cfg: Config, w: World, h: Happening)
    requires Linked(cat, cfg, w) && Connected(w) && CountedApart(w.producer)
    ensures CountedApart(Happens(cat, cfg, w, h).producer)
  {
    hide Linked, Connected, Enabled, Next, Step, FreshId, Touches, Handle, CountedApart, MoveIf;
    var p := w.producer;
    match h
    case Produce(d, now) => MoveIfIsCountedApart(cfg, p, Generate(d, now));
    case Unblock => MoveIfIsCountedApart(cfg, p, ResumePut);
    case Fetch(worker) => MoveIfIsCountedApart(cfg, p, Take(worker));
    case Post(worker) =>
      if Enabled(cfg, p, Send(worker)) {
        MoveIsCountedApart(cfg, p, Send(worker));
      }
    case Lost(worker) => HandleIsCountedApart(cfg, p, worker, React(TransportFailure), false);
    case Respond(worker, i, replay) =>
      if Answers(w, i, worker) {
        AnswersAreUnderstood(w.backend.sessions[i].pc.verdict);
        if p.workers[worker].Replaying? {
          ReplayReceiptIsDuplicate(cat, cfg, w, i, worker);
        }
        HandleIsCountedApart(cfg, p, worker, React(Answer(w.backend.sessions[i].pc.verdict)), replay);
      }
    case _ =>
  }

  lemma {:induction false} HistoryIsCountedApart(cat: Catalog, cfg: Config, db: Db, hs: seq<Happening>)
    requires cfg.Valid() && cat.Valid() && Legal(cat, db.rows) && Stocked(cat, cfg)
    ensures CountedApart(History(cat, cfg, db, hs).producer)
  {
    if hs != [] {
      hide Linked, Connected, Stocked, Happens, CountedApart;
      HistoryIsCountedApart(cat, cfg, db, Init(hs));
      HistoryIsLinked(cat, cfg, db, Init(hs));
      HappensIsCountedApart(cat, cfg, History(cat, cfg, db, Init(hs)), Last(hs));
    }
  }

  lemma DeliveredIsGenerated(cfg: Config, p: Producer, g: Payload)
    requires Sound(cfg, p) && g in p.delivered
    ensures g in p.generated
  {
  }

  /** For any retry limit and any history: no replay is ever counted as accepted, and the accepted
      counter never exceeds the deliveries, nor they the rows the table has gained. */
  lemma AcceptedNeverExceedsRows(cat: Catalog, cfg: Config, db: Db, hs: seq<Happening>)
    requires cfg.Valid() && cat.Valid() && Legal(cat, db.rows) && Stocked(cat, cfg)
    ensures
      var w := History(cat, cfg, db, hs);
      var s := w.producer.stats;
      && s.deliberateDuplicates <= s.deliveredDuplicate
      && s.deliveredAccepted <= |w.producer.delivered| <= |w.backend.db.rows| - |db.rows|
  {
    var w := History(cat, cfg, db, hs);
    var rows := w.backend.db.rows;
    HistoryIsCountedApart(cat, cfg, db, hs);
    HistoryIsLinked(cat, cfg, db, hs);
    DeliveredOnce(cat, cfg, db, hs);
    GeneratedIsNew(cat, cfg, db, hs);
    hide History, Stocked, IsRecordOf, Inv, Connected;
    assert forall i | 0 <= i < |db.rows| :: db.rows[i] == rows[i];
    forall k | 0 <= k < |w.producer.delivered|
      ensures HasRow(rows[|db.rows|..], w.producer.delivered[k].eventId)
    {
      var i := DeliveredRow(cat, cfg, w, w.producer.delivered[k]);
      DeliveredIsGenerated(cfg, w.producer, w.producer.delivered[k]);
      assert rows[|db.rows|..][i - |db.rows|] == rows[i];
    }
    RowForEach(w.producer.delivered, rows[|db.rows|..]);
  }

  // ---------------------------------------------------------------- the receipts behind the counters

  /** How many of the sessions heard were accepted, or duplicates. */
  function HeardOf(s: State, heard: seq<nat>, accepted: bool): nat {
    if heard == [] then 0
    else
      HeardOf(s, Init(heard), accepted)
      + if Last(heard) < |s.sessions| && s.sessions[Last(heard)].pc.Done?
           && (if accepted then s.sessions[Last(heard)].pc.verdict.Accepted?
               else s.sessions[Last(heard)].pc.verdict.Duplicate?)
        then 1 else 0
  }

  /** The POST that this session served has no worker waiting for it any more. */
  predicate IsOver(w: World, i: nat) {
    && i in w.wires.serves && i < |w.backend.sessions| && Finished(w.backend.sessions[i])
    && w.wires.serves[i] < |w.wires.posts|
    && forall worker | worker in w.wires.latest ::
         w.wires.latest[worker] == w.wires.serves[i] ==> !IsOpen(w.producer, worker)
  }

  /** Workers wait for different POSTs. */
  predicate LatestDiffer(wires: Wires) {
    && (forall worker | worker in wires.latest :: wires.latest[worker] < |wires.posts|)
    && forall v, w | v in wires.latest && w in wires.latest && v != w :: wires.latest[v] != wires.latest[w]
  }

  /** The counters are the receipts that were heard, each once, by verdict. */
  ghost predicate CountersAreHeard(w: World) {
    && LatestDiffer(w.wires)
    && (forall k | 0 <= k < |w.wires.heard| :: IsOver(w, w.wires.heard[k]))
    && (forall j, k | 0 <= j < k < |w.wires.heard| :: w.wires.heard[j] != w.wires.heard[k])
    && w.producer.stats.deliveredAccepted == HeardOf(w.backend, w.wires.heard, true)
    && w.producer.stats.deliveredDuplicate == HeardOf(w.backend, w.wires.heard, false)
  }

  lemma {:induction false} HeardIsStable(s: State, s': State, heard: seq<nat>, accepted: bool)
    requires forall k | 0 <= k < |heard| ::
               heard[k] < |s.sessions| && heard[k] < |s'.sessions| && s'.sessions[heard[k]] == s.sessions[heard[k]]
    ensures HeardOf(s', heard, accepted) == HeardOf(s, heard, accepted)
  {
    if heard != [] {
      assert forall k | 0 <= k < |Init(heard)| :: Init(heard)[k] == heard[k];
      assert Last(heard) == heard[|heard| - 1];
      HeardIsStable(s, s', Init(heard), accepted);
    }
  }

  lemma FinishedIsStable(cat: Catalog, s: State, a: Action, i: nat)
    requires i < |s.sessions| && Finished(s.sessions[i])
    ensures i < |Step(cat, s, a).sessions| && Step(cat, s, a).sessions[i] == s.sessions[i]
  {
  }

  lemma StepIsHeard(cat: Catalog, w: World, a: Action)
    requires CountersAreHeard(w)
    ensures CountersAreHeard(w.(backend := Step(cat, w.backend, a)))
  {
    hide Step;
    var s, s', heard := w.backend, Step(cat, w.backend, a), w.wires.heard;
    forall k | 0 <= k < |heard|
      ensures heard[k] < |s'.sessions| && s'.sessions[heard[k]] == s.sessions[heard[k]]
      ensures IsOver(w.(backend := s'), heard[k])
    {
      assert IsOver(w, heard[k]);
      FinishedIsStable(cat, s, a, heard[k]);
    }
    HeardIsStable(s, s', heard, true);
    HeardIsStable(s, s', heard, false);
  }

  /** A move that counts no receipt. */
  lemma MoveIsHeard(cfg: Config, w: World, m: Move)
    requires CountersAreHeard(w) && Enabled(cfg, w.producer, m)
    requires !m.Send? && !m.Deliver? && !(m.ReplayDone? && m.outcome.Some?)
    ensures CountersAreHeard(w.(producer := Next(cfg, w.producer, m)))
  {
    hide MakeEvent, CommitDelivery, RollbackDelivery, HeardOf;
    var w' := w.(producer := Next(cfg, w.producer, m));
    forall k | 0 <= k < |w.wires.heard| ensures IsOver(w', w.wires.heard[k]) {
      assert IsOver(w, w.wires.heard[k]);
    }
  }

  lemma MoveIfIsHeard(cfg: Config, w: World, m: Move)
    requires CountersAreHeard(w) && !m.Send? && !m.Deliver? && !m.ReplayDone?
    ensures CountersAreHeard(w.(producer := MoveIf(cfg, w.producer, m)))
  {
    hide CountersAreHeard, Next, Enabled;
    if Enabled(cfg, w.producer, m) {
      MoveIsHeard(cfg, w, m);
    }
  }

  /** A new POST has a number of its own. */
  lemma PostIsHeard(cat: Catalog, cfg: Config, w: World, worker: nat)
    requires CountersAreHeard(w) && Enabled(cfg, w.producer, Send(worker))
    ensures CountersAreHeard(Happens(cat, cfg, w, Post(worker)))
  {
    hide HeardOf;
    var w' := Happens(cat, cfg, w, Post(worker));
    forall k | 0 <= k < |w.wires.heard| ensures IsOver(w', w.wires.heard[k]) {
      assert IsOver(w, w.wires.heard[k]);
    }
  }

  lemma ArriveIsHeard(cat: Catalog, cfg: Config, w: World, n: nat, now: Instant)
    requires CountersAreHeard(w) && n < |w.wires.posts|
    ensures CountersAreHeard(Happens(cat, cfg, w, Arrive(n, now)))
  {
    hide HeardOf, Step;
    StepIsHeard(cat, w, Start(w.wires.posts[n], now));
    var stepped := w.(backend := Step(cat, w.backend, Start(w.wires.posts[n], now)));
    var w' := Happens(cat, cfg, w, Arrive(n, now));
    forall k | 0 <= k < |w.wires.heard| ensures IsOver(w', w.wires.heard[k]) {
      assert IsOver(w, w.wires.heard[k]) && IsOver(stepped, w.wires.heard[k]);
    }
  }

  /** A receipt that is counted is heard for the first time, with its own verdict. */
  lemma ReceiptIsHeard(cat: Catalog, cfg: Config, w: World, worker: nat, i: nat, replay: bool)
    requires CountersAreHeard(w) && Answers(w, i, worker)
    requires
      var reaction := React(Answer(w.backend.sessions[i].pc.verdict));
      reaction.Delivered? && Enabled(cfg, w.producer, Reply(cfg, w.producer, worker, reaction, replay))
    requires i < |w.backend.sessions| && i in w.wires.serves && w.wires.serves[i] < |w.wires.posts|
    ensures CountersAreHeard(Happens(cat, cfg, w, Respond(worker, i, replay)))
  {
    hide CommitDelivery;
    AnswersAreUnderstood(w.backend.sessions[i].pc.verdict);
    var w', heard := Happens(cat, cfg, w, Respond(worker, i, replay)), w.wires.heard;
    assert Init(heard + [i]) == heard && Last(heard + [i]) == i;
    forall k | 0 <= k < |heard| ensures IsOver(w', heard[k]) && heard[k] != i {
      assert IsOver(w, heard[k]);
    }
    assert IsOver(w', i);
  }

  lemma ServedIsPosted(w: World, i: nat)
    requires Connected(w) && i in w.wires.serves
    ensures i < |w.backend.sessions| && w.wires.serves[i] < |w.wires.posts|
  {
    assert ServesItsPost(w.backend, w.wires, i);
  }

  lemma HandleIsHeard(cfg: Config, w: World, worker: nat, reaction: Reaction, replay: bool)
    requires CountersAreHeard(w)
    requires reaction.Delivered? && IsOpen(w.producer, worker) ==>
               !Enabled(cfg, w.producer, Reply(cfg, w.producer, worker, reaction, replay))
    ensures CountersAreHeard(w.(producer := Handle(cfg, w.producer, worker, reaction, replay)))
  {
    hide CountersAreHeard, Enabled, Next;
    if IsOpen(w.producer, worker) {
      var m := Reply(cfg, w.producer, worker, reaction, replay);
      if Enabled(cfg, w.producer, m) {
        MoveIsHeard(cfg, w, m);
      }
    }
  }

  lemma HappensIsHeard(cat: Catalog, cfg: Config, w: World, h: Happening)
    requires CountersAreHeard(w) && Connected(w)
    ensures CountersAreHeard(Happens(cat, cfg, w, h))
  {
    hide CountersAreHeard, Connected, Enabled, Next, Step, FreshId, Touches;
    match h
    case Produce(d, now) => MoveIfIsHeard(cfg, w, Generate(d, now));
    case Unblock => MoveIfIsHeard(cfg, w, ResumePut);
    case Fetch(worker) => MoveIfIsHeard(cfg, w, Take(worker));
    case Post(worker) =>
      if Enabled(cfg, w.producer, Send(worker)) {
        PostIsHeard(cat, cfg, w, worker);
      }
    case Lost(worker) => HandleIsHeard(cfg, w, worker, React(TransportFailure), false);
    case Arrive(n, now) =>
      if n < |w.wires.posts| {
        ArriveIsHeard(cat, cfg, w, n, now);
      }
    case Foreign(p, now) => StepIsHeard(cat, w, Start(p, now));
    case Execute(i) => StepIsHeard(cat, w, Advance(i));
    case Crash(i) => StepIsHeard(cat, w, Abort(i));
    case Cut(i) => StepIsHeard(cat, w, Sever(i));
    case Respond(worker, i, replay) =>
      if Answers(w, i, worker) {
        var reaction := React(Answer(w.backend.sessions[i].pc.verdict));
        if reaction.Delivered? && Enabled(cfg, w.producer, Reply(cfg, w.producer, worker, reaction, replay)) {
          ServedIsPosted(w, i);
          ReceiptIsHeard(cat, cfg, w, worker, i, replay);
        } else {
          HandleIsHeard(cfg, w, worker, reaction, replay);
        }
      }
  }

  /** For any retry limit and any history: each counter of receipts is the number of sessions with that
      verdict whose answer reached the worker that was waiting for it, and no answer counts twice. */
  lemma {:induction false} CountersAreReceipts(cat: Catalog, cfg: Config, db: Db, hs: seq<Happening>)
    requires cfg.Valid() && cat.Valid() && Legal(cat, db.rows) && Stocked(cat, cfg)
    ensures CountersAreHeard(History(cat, cfg, db, hs))
  {
    if hs != [] {
      hide Linked, Connected, Stocked, Happens, CountersAreHeard;
      CountersAreReceipts(cat, cfg, db, Init(hs));
      HistoryIsLinked(cat, cfg, db, Init(hs));
      HappensIsHeard(cat, cfg, History(cat, cfg, db, Init(hs)), Last(hs));
    }
  }
}
