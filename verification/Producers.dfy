/** The delivery runtime of one producer: a traffic loop, a bounded queue and any number of
    delivery workers, between awaits.  generated, delivered, failed, taken, sent, spent and replayed are histories
    that the program does not keep; everything else is its state. */
module Producers {
  import opened Events
  import opened Settings
  import opened Ledgers

  type Event = Outbound<Entry>

  /** A worker delivers an event, or replays it: posts counts the POSTs of this delivery or replay so
      far, and open says that the latest is still without an outcome. */
  datatype Worker =
    | Idle
    | Awaiting(event: Event, posts: nat, open: bool)
    | Replaying(event: Event, posts: nat, open: bool)

  datatype Stats = Stats(
    generatedSales: nat,
    generatedRefunds: nat,
    deliveredAccepted: nat,
    deliveredDuplicate: nat,
    deliberateDuplicates: nat,
    duplicateReplayFailures: nat,
    retryAttempts: nat,
    permanentFailures: nat)

  datatype Producer = Producer(
    book: Book,
    queue: seq<Event>,
    unfinished: nat,
    putting: Option<Event>,        // the traffic loop, blocked on a full queue
    workers: seq<Worker>,
    stats: Stats,
    generated: seq<Payload>,
    delivered: seq<Payload>,
    failed: seq<Payload>,
    taken: seq<Payload>,           // by the workers, in order
    sent: nat,                     // POSTs in all
    spent: nat,                    // POSTs of deliveries and replays that ended in an error
    replayed: nat)                 // replays that were begun

  function Started(cfg: Config): Producer
    requires cfg.Valid()
  {
    Producer(map[], [], 0, None, seq(cfg.workerCount, i => Idle), Stats(0, 0, 0, 0, 0, 0, 0, 0), [], [], [],
             [], 0, 0, 0)
  }

  /** The traffic loop and the workers, from one await to the next. */
  datatype Move =
    | Generate(draw: Draw, now: Instant)
    | ResumePut
    | Take(worker: nat)
    | Send(worker: nat)                                         // one POST goes out
    | Retry(worker: nat)                                        // it has to be repeated
    | Deliver(worker: nat, accepted: bool, replay: bool)        // it brought a receipt
    | Fail(worker: nat)                                         // it ended the delivery in an error
    | ReplayDone(worker: nat, outcome: Option<bool>)            // it ended the replay

  predicate IsBusy(p: Producer, w: nat) {
    w < |p.workers| && !p.workers[w].Idle?
  }

  /** The worker's POST is out. */
  predicate IsOpen(p: Producer, w: nat) {
    IsBusy(p, w) && p.workers[w].open && p.workers[w].posts >= 1
  }

  predicate UsedId(p: Producer, id: Uuid) {
    exists i | 0 <= i < |p.generated| :: p.generated[i].eventId == id
  }

  predicate Enabled(cfg: Config, p: Producer, m: Move) {
    match m
    case Generate(d, _) => p.putting.None? && DrawOk(cfg, p.book, d) && !UsedId(p, d.eventId)
    case ResumePut => p.putting.Some? && |p.queue| < cfg.queueSize
    case Take(w) => w < |p.workers| && p.workers[w].Idle? && p.queue != []
    case Send(w) => IsBusy(p, w) && !p.workers[w].open
    case Retry(w) => IsOpen(p, w) && !cfg.LimitReached(p.workers[w].posts)
    case Deliver(w, _, replay) =>
      IsOpen(p, w) && p.workers[w].Awaiting? && (replay ==> p.workers[w].event.allowDeliberateDuplicate)
    case Fail(w) => IsOpen(p, w) && p.workers[w].Awaiting?
    case ReplayDone(w, _) => IsOpen(p, w) && p.workers[w].Replaying?
  }

  function Enqueue(cfg: Config, p: Producer, e: Event): Producer {
    if |p.queue| < cfg.queueSize
    then p.(queue := p.queue + [e], unfinished := p.unfinished + 1)
    else p.(putting := Some(e))
  }

  function CountReceipt(s: Stats, accepted: bool, attempts: nat): Stats
    requires attempts >= 1
  {
    var s' := s.(retryAttempts := s.retryAttempts + attempts - 1);
    if accepted then s'.(deliveredAccepted := s'.deliveredAccepted + 1)
    else s'.(deliveredDuplicate := s'.deliveredDuplicate + 1)
  }

  /** task_done, with the worker back at the queue. */
  function TaskDone(p: Producer, w: nat): Producer
    requires w < |p.workers|
  {
    p.(workers := p.workers[w := Idle], unfinished := if p.unfinished > 0 then p.unfinished - 1 else 0)
  }

  function Sending(w: Worker): Worker
    requires !w.Idle?
  {
    w.(posts := w.posts + 1, open := true)
  }

  function Next(cfg: Config, p: Producer, m: Move): Producer
    requires Enabled(cfg, p, m)
  {
    match m
    case Generate(d, now) =>
      var (e, book) := MakeEvent(cfg, p.book, d, now);
      var stats := if e.kind.RefundOut?
                   then p.stats.(generatedRefunds := p.stats.generatedRefunds + 1)
                   else p.stats.(generatedSales := p.stats.generatedSales + 1);
      Enqueue(cfg, p.(book := book, stats := stats, generated := p.generated + [e.payload]), e)
    case ResumePut => Enqueue(cfg, p.(putting := None), p.putting.value)
    case Take(w) =>
      var e := p.queue[0];
      p.(queue := p.queue[1..], workers := p.workers[w := Awaiting(e, 0, false)], taken := p.taken + [e.payload])
    case Send(w) =>
      p.(workers := p.workers[w := Sending(p.workers[w])], sent := p.sent + 1)
    case Retry(w) => p.(workers := p.workers[w := p.workers[w].(open := false)])
    case Deliver(w, accepted, replay) =>
      var e := p.workers[w].event;
      var p' := p.(book := CommitDelivery(p.book, e),
                   stats := CountReceipt(p.stats, accepted, p.workers[w].posts),
                   delivered := p.delivered + [e.payload]);
      if replay then p'.(workers := p.workers[w := Replaying(e, 0, false)], replayed := p.replayed + 1)
      else TaskDone(p', w)
    case Fail(w) =>
      var e := p.workers[w].event;
      TaskDone(p.(book := RollbackDelivery(p.book, e),
                  stats := p.stats.(permanentFailures := p.stats.permanentFailures + 1),
                  failed := p.failed + [e.payload],
                  spent := p.spent + p.workers[w].posts), w)
    case ReplayDone(w, accepted) =>
      var stats := if accepted.None?
                   then p.stats.(duplicateReplayFailures := p.stats.duplicateReplayFailures + 1)
                   else CountReceipt(p.stats, accepted.value, p.workers[w].posts)
                        .(deliberateDuplicates := p.stats.deliberateDuplicates + 1);
      TaskDone(p.(stats := stats, spent := p.spent + if accepted.None? then p.workers[w].posts else 0), w)
  }

  // ---------------------------------------------------------------- totals over payloads

  /** The sum of a weight over payloads. */
  function Total(w: Payload -> int, ps: seq<Payload>): int {
    if ps == [] then 0 else Total(w, Init(ps)) + w(Last(ps))
  }

  lemma TotalAppend(w: Payload -> int, ps: seq<Payload>, p: Payload)
    ensures Total(w, ps + [p]) == Total(w, ps) + w(p)
  {
    assert Init(ps + [p]) == ps;
  }

  lemma {:induction false} TotalFirst(w: Payload -> int, ps: seq<Payload>)
    requires ps != []
    ensures Total(w, ps) == w(ps[0]) + Total(w, ps[1..])
  {
    if |ps| > 1 {
      TotalFirst(w, Init(ps));
      assert Init(ps[1..]) == Init(ps)[1..];
    }
  }

  lemma {:induction false} TotalRemoved(w: Payload -> int, ps: seq<Payload>, i: nat)
    requires i < |ps|
    ensures Total(w, ps) == w(ps[i]) + Total(w, ps[..i] + ps[i + 1..])
  {
    if i == |ps| - 1 {
      assert ps[..i] + ps[i + 1..] == Init(ps);
    } else {
      TotalRemoved(w, Init(ps), i);
      assert Init(ps[..i] + ps[i + 1..]) == Init(ps)[..i] + Init(ps)[i + 1..];
    }
  }

  function Payloads(es: seq<Event>): seq<Payload> {
    seq(|es|, i requires 0 <= i < |es| => es[i].payload)
  }

  function AwaitingTotal(w: Payload -> int, workers: seq<Worker>): int {
    if workers == [] then 0
    else AwaitingTotal(w, Init(workers)) + if Last(workers).Awaiting? then w(Last(workers).event.payload) else 0
  }

  lemma {:induction false} AwaitingUpdated(w: Payload -> int, workers: seq<Worker>, i: nat, new_: Worker)
    requires i < |workers|
    ensures AwaitingTotal(w, workers[i := new_])
            == AwaitingTotal(w, workers)
               - (if workers[i].Awaiting? then w(workers[i].event.payload) else 0)
               + (if new_.Awaiting? then w(new_.event.payload) else 0)
  {
    if i < |workers| - 1 {
      AwaitingUpdated(w, Init(workers), i, new_);
      assert Init(workers[i := new_]) == Init(workers)[i := new_];
    } else {
      assert Init(workers[i := new_]) == Init(workers);
    }
  }

  /** Generated and neither delivered nor failed. */
  function InTransit(w: Payload -> int, p: Producer): int {
    Total(w, Payloads(p.queue))
    + (if p.putting.Some? then w(p.putting.value.payload) else 0)
    + AwaitingTotal(w, p.workers)
  }

  /** Nothing generated is lost or made twice, in any measure. */
  predicate Balanced(w: Payload -> int, p: Producer) {
    Total(w, p.generated) == InTransit(w, p) + Total(w, p.delivered) + Total(w, p.failed)
  }

  /** What a move brings into transit, and what it takes out. */
  function Entering(w: Payload -> int, cfg: Config, p: Producer, m: Move): int
    requires Enabled(cfg, p, m)
  {
    match m
    case Generate(d, now) => w(MakeEvent(cfg, p.book, d, now).0.payload)
    case _ => 0
  }

  function Leaving(w: Payload -> int, cfg: Config, p: Producer, m: Move): int
    requires Enabled(cfg, p, m)
  {
    match m
    case Deliver(i, _, _) => w(p.workers[i].event.payload)
    case Fail(i) => w(p.workers[i].event.payload)
    case _ => 0
  }

  /** A worker alone changes. */
  lemma WorkerTransit(w: Payload -> int, p: Producer, p': Producer, i: nat)
    requires i < |p.workers| && i < |p'.workers| && p'.workers == p.workers[i := p'.workers[i]]
    requires p'.queue == p.queue && p'.putting == p.putting
    ensures InTransit(w, p')
            == InTransit(w, p)
               - (if p.workers[i].Awaiting? then w(p.workers[i].event.payload) else 0)
               + (if p'.workers[i].Awaiting? then w(p'.workers[i].event.payload) else 0)
  {
    AwaitingUpdated(w, p.workers, i, p'.workers[i]);
  }

  lemma PutTransit(w: Payload -> int, cfg: Config, p: Producer, e: Event)
    requires p.putting.None?
    ensures InTransit(w, Enqueue(cfg, p, e)) == InTransit(w, p) + w(e.payload)
  {
    TotalAppend(w, Payloads(p.queue), e.payload);
    assert Payloads(p.queue + [e]) == Payloads(p.queue) + [e.payload];
  }

  lemma TakeTransit(w: Payload -> int, cfg: Config, p: Producer, i: nat)
    requires Enabled(cfg, p, Take(i))
    ensures InTransit(w, Next(cfg, p, Take(i))) == InTransit(w, p)
  {
    TotalFirst(w, Payloads(p.queue));
    assert Payloads(p.queue[1..]) == Payloads(p.queue)[1..];
    AwaitingUpdated(w, p.workers, i, Awaiting(p.queue[0], 0, false));
  }

  lemma QueueTransit(w: Payload -> int, cfg: Config, p: Producer, m: Move)
    requires Enabled(cfg, p, m) && (m.Generate? || m.ResumePut? || m.Take?)
    ensures InTransit(w, Next(cfg, p, m)) == InTransit(w, p) + Entering(w, cfg, p, m)
  {
    hide MakeEvent, Enqueue;
    match m
    case Generate(d, now) =>
      var (e, book) := MakeEvent(cfg, p.book, d, now);
      var stats := if e.kind.RefundOut?
                   then p.stats.(generatedRefunds := p.stats.generatedRefunds + 1)
                   else p.stats.(generatedSales := p.stats.generatedSales + 1);
      PutTransit(w, cfg, p.(book := book, stats := stats, generated := p.generated + [e.payload]), e);
    case ResumePut => PutTransit(w, cfg, p.(putting := None), p.putting.value);
    case Take(i) => TakeTransit(w, cfg, p, i);
  }

  /** A move changes what is in transit by what it generates, delivers or gives up. */
  lemma TransitChanges(w: Payload -> int, cfg: Config, p: Producer, m: Move)
    requires Enabled(cfg, p, m)
    ensures InTransit(w, Next(cfg, p, m)) == InTransit(w, p) + Entering(w, cfg, p, m) - Leaving(w, cfg, p, m)
  {
    hide InTransit, MakeEvent, CommitDelivery, RollbackDelivery, CountReceipt;
    if m.Generate? || m.ResumePut? || m.Take? {
      QueueTransit(w, cfg, p, m);
    } else {
      WorkerTransit(w, p, Next(cfg, p, m), m.worker);
    }
  }

  lemma NextIsBalanced(w: Payload -> int, cfg: Config, p: Producer, m: Move)
    requires Enabled(cfg, p, m) && Balanced(w, p)
    ensures Balanced(w, Next(cfg, p, m))
  {
    hide InTransit, MakeEvent, CommitDelivery, RollbackDelivery, CountReceipt;
    TransitChanges(w, cfg, p, m);
    match m
    case Generate(d, now) => TotalAppend(w, p.generated, MakeEvent(cfg, p.book, d, now).0.payload);
    case Deliver(i, accepted, replay) => TotalAppend(w, p.delivered, p.workers[i].event.payload);
    case Fail(i) => TotalAppend(w, p.failed, p.workers[i].event.payload);
    case _ =>
  }

  // ---------------------------------------------------------------- counters and the queue

  function Busy(workers: seq<Worker>): nat {
    if workers == [] then 0 else Busy(Init(workers)) + if Last(workers).Idle? then 0 else 1
  }

  lemma {:induction false} BusyUpdated(workers: seq<Worker>, i: nat, new_: Worker)
    requires i < |workers|
    ensures Busy(workers[i := new_])
            == Busy(workers) - (if workers[i].Idle? then 0 else 1) + (if new_.Idle? then 0 else 1)
    ensures !workers[i].Idle? ==> Busy(workers) >= 1
  {
    if i < |workers| - 1 {
      BusyUpdated(Init(workers), i, new_);
      assert Init(workers[i := new_]) == Init(workers)[i := new_];
    } else {
      assert Init(workers[i := new_]) == Init(workers);
    }
  }

  /** Every event counts one. */
  function One(): Payload -> int {
    (p: Payload) => 1
  }

  /** The counters add up, unfinished tasks are the queued and the held events, and the queue
      keeps its bound. */
  predicate Accounted(cfg: Config, p: Producer) {
    && p.stats.generatedSales + p.stats.generatedRefunds + p.stats.deliberateDuplicates
       == p.stats.deliveredAccepted + p.stats.deliveredDuplicate + p.stats.permanentFailures + InTransit(One(), p)
    && p.unfinished == |p.queue| + Busy(p.workers)
    && |p.queue| <= cfg.queueSize
    && |p.workers| == cfg.workerCount
    && p.stats.generatedSales + p.stats.generatedRefunds == |p.generated|
    && p.stats.permanentFailures == |p.failed|
  }

  lemma {:induction false} OneCounts(ps: seq<Payload>)
    ensures Total(One(), ps) == |ps|
  {
    if ps != [] {
      OneCounts(Init(ps));
    }
  }

  lemma CountersAddUp(cfg: Config, p: Producer, m: Move)
    requires cfg.Valid() && Enabled(cfg, p, m) && Accounted(cfg, p)
    ensures
      var s := Next(cfg, p, m).stats;
      s.generatedSales + s.generatedRefunds + s.deliberateDuplicates
      == s.deliveredAccepted + s.deliveredDuplicate + s.permanentFailures + InTransit(One(), Next(cfg, p, m))
  {
    hide InTransit, MakeEvent, CommitDelivery, RollbackDelivery;
    TransitChanges(One(), cfg, p, m);
  }

  lemma NextIsAccounted(cfg: Config, p: Producer, m: Move)
    requires cfg.Valid() && Enabled(cfg, p, m) && Accounted(cfg, p)
    ensures Accounted(cfg, Next(cfg, p, m))
  {
    CountersAddUp(cfg, p, m);
    match m
    case Generate(d, now) =>
    case ResumePut =>
    case Take(i) => BusyUpdated(p.workers, i, Awaiting(p.queue[0], 0, false));
    case Send(i) => BusyUpdated(p.workers, i, Next(cfg, p, m).workers[i]);
    case Retry(i) => BusyUpdated(p.workers, i, Next(cfg, p, m).workers[i]);
    case Deliver(i, accepted, replay) => BusyUpdated(p.workers, i, Next(cfg, p, m).workers[i]);
    case Fail(i) => BusyUpdated(p.workers, i, Idle);
    case ReplayDone(i, accepted) => BusyUpdated(p.workers, i, Idle);
  }

  lemma {:induction false} NobodyBusy(w: Payload -> int, workers: seq<Worker>)
    requires forall i | 0 <= i < |workers| :: workers[i].Idle?
    ensures Busy(workers) == 0 && AwaitingTotal(w, workers) == 0
  {
    if workers != [] {
      NobodyBusy(w, Init(workers));
    }
  }

  lemma StartedIsAccounted(w: Payload -> int, cfg: Config)
    requires cfg.Valid()
    ensures Accounted(cfg, Started(cfg)) && Balanced(w, Started(cfg))
  {
    NobodyBusy(w, Started(cfg).workers);
    NobodyBusy(One(), Started(cfg).workers);
  }

  // ---------------------------------------------------------------- POSTs

  /** POSTs of deliveries and replays that have not ended. */
  function UnderWay(workers: seq<Worker>): nat {
    if workers == [] then 0 else UnderWay(Init(workers)) + if Last(workers).Idle? then 0 else Last(workers).posts
  }

  lemma {:induction false} UnderWayUpdated(workers: seq<Worker>, i: nat, new_: Worker)
    requires i < |workers|
    ensures UnderWay(workers[i := new_])
            == UnderWay(workers) - (if workers[i].Idle? then 0 else workers[i].posts)
               + (if new_.Idle? then 0 else new_.posts)
  {
    if i < |workers| - 1 {
      UnderWayUpdated(Init(workers), i, new_);
      assert Init(workers[i := new_]) == Init(workers)[i := new_];
    } else {
      assert Init(workers[i := new_]) == Init(workers);
    }
  }

  /** No delivery and no replay posts more often than the limit allows. */
  predicate WithinLimit(cfg: Config, w: Worker) {
    !w.Idle? ==>
      && (w.open ==> w.posts >= 1)
      && (cfg.maxRetryAttempts > 0 ==> w.posts <= cfg.maxRetryAttempts)
      && (!w.open ==> !cfg.LimitReached(w.posts))
  }

  /** The retry counter is what the POSTs behind receipts exceed the receipts by. */
  predicate PostsAddUp(cfg: Config, p: Producer) {
    && p.stats.retryAttempts
       == (p.sent - p.spent - UnderWay(p.workers)) - (p.stats.deliveredAccepted + p.stats.deliveredDuplicate)
    && forall i | 0 <= i < |p.workers| :: WithinLimit(cfg, p.workers[i])
  }

  lemma NextKeepsPosts(cfg: Config, p: Producer, m: Move)
    requires cfg.Valid() && Enabled(cfg, p, m) && PostsAddUp(cfg, p)
    ensures PostsAddUp(cfg, Next(cfg, p, m))
  {
    hide MakeEvent, CommitDelivery, RollbackDelivery;
    if !m.Generate? && !m.ResumePut? {
      UnderWayUpdated(p.workers, m.worker, Next(cfg, p, m).workers[m.worker]);
    }
  }

  lemma {:induction false} NothingUnderWay(workers: seq<Worker>)
    requires forall i | 0 <= i < |workers| :: workers[i].Idle?
    ensures UnderWay(workers) == 0
  {
    if workers != [] {
      NothingUnderWay(Init(workers));
    }
  }

  // ---------------------------------------------------------------- order, replays and kinds

  function Blocked(p: Producer): seq<Payload> {
    if p.putting.Some? then [p.putting.value.payload] else []
  }

  /** Events are taken in the order in which they were generated: behind those taken come the queue and
      then the blocked put. */
  predicate InOrder(p: Producer) {
    p.generated == p.taken + Payloads(p.queue) + Blocked(p)
  }

  function ReplaysUnderWay(workers: seq<Worker>): nat {
    if workers == [] then 0 else ReplaysUnderWay(Init(workers)) + if Last(workers).Replaying? then 1 else 0
  }

  lemma {:induction false} ReplaysUpdated(workers: seq<Worker>, i: nat, new_: Worker)
    requires i < |workers|
    ensures ReplaysUnderWay(workers[i := new_])
            == ReplaysUnderWay(workers) - (if workers[i].Replaying? then 1 else 0) + (if new_.Replaying? then 1 else 0)
  {
    if i < |workers| - 1 {
      ReplaysUpdated(Init(workers), i, new_);
      assert Init(workers[i := new_]) == Init(workers)[i := new_];
    } else {
      assert Init(workers[i := new_]) == Init(workers);
    }
  }

  lemma {:induction false} NoReplaysUnderWay(workers: seq<Worker>)
    requires forall i | 0 <= i < |workers| :: workers[i].Idle?
    ensures ReplaysUnderWay(workers) == 0
  {
    if workers != [] {
      NoReplaysUnderWay(Init(workers));
    }
  }

  /** Every refund counts one. */
  function Refunding(): Payload -> int {
    (p: Payload) => if p.kind.Refund? then 1 else 0
  }

  /** Each replay that was begun is counted by how it ended or is under way, and refunds and sales are
      counted apart. */
  predicate CountedByKind(p: Producer) {
    && p.replayed
       == p.stats.deliberateDuplicates + p.stats.duplicateReplayFailures + ReplaysUnderWay(p.workers)
    && p.stats.generatedRefunds == Total(Refunding(), p.generated)
  }

  lemma NextIsInOrder(cfg: Config, p: Producer, m: Move)
    requires Enabled(cfg, p, m) && InOrder(p)
    ensures InOrder(Next(cfg, p, m))
    ensures m.Take? ==> Next(cfg, p, m).workers[m.worker].event == p.queue[0]
  {
    hide MakeEvent, CommitDelivery, RollbackDelivery, CountReceipt;
    match m
    case Generate(d, now) =>
      var e := MakeEvent(cfg, p.book, d, now).0;
      assert Payloads(p.queue + [e]) == Payloads(p.queue) + [e.payload];
    case ResumePut =>
      assert Payloads(p.queue + [p.putting.value]) == Payloads(p.queue) + [p.putting.value.payload];
    case Take(i) =>
      assert Payloads(p.queue) == [p.queue[0].payload] + Payloads(p.queue[1..]);
    case _ =>
  }

  lemma NextIsCountedByKind(cfg: Config, p: Producer, m: Move)
    requires Enabled(cfg, p, m) && CountedByKind(p)
    ensures CountedByKind(Next(cfg, p, m))
  {
    hide CommitDelivery, RollbackDelivery;
    if m.Generate? {
      TotalAppend(Refunding(), p.generated, MakeEvent(cfg, p.book, m.draw, m.now).0.payload);
    } else if !m.ResumePut? {
      hide MakeEvent;
      ReplaysUpdated(p.workers, m.worker, Next(cfg, p, m).workers[m.worker]);
    }
  }

  /** What follows an outcome: a delivery that is to be replayed goes on with the same event, as one task
      still to be done; any other end leaves the worker idle and its task done. */
  lemma OutcomeIsFollowed(cfg: Config, p: Producer, m: Move)
    requires cfg.Valid() && Accounted(cfg, p) && Enabled(cfg, p, m)
    requires m.Deliver? || m.Fail? || m.ReplayDone?
    ensures
      var p', e := Next(cfg, p, m), p.workers[m.worker].event;
      if m.Deliver? && m.replay
      then
        && p'.workers[m.worker] == Replaying(e, 0, false)
        && p'.unfinished == p.unfinished && p'.replayed == p.replayed + 1
      else p'.workers[m.worker].Idle? && p'.unfinished == p.unfinished - 1 && p'.replayed == p.replayed
  {
    hide CommitDelivery, RollbackDelivery, CountReceipt, InTransit;
    BusyUpdated(p.workers, m.worker, Idle);
  }

  /** A put blocks exactly on a full queue. */
  lemma PutBlocksExactly(cfg: Config, p: Producer, d: Draw, now: Instant)
    requires Accounted(cfg, p) && Enabled(cfg, p, Generate(d, now))
    ensures Next(cfg, p, Generate(d, now)).putting.Some? <==> |p.queue| == cfg.queueSize
  {
    hide MakeEvent;
  }

  // ---------------------------------------------------------------- runs

  /** A full queue never stops everything: each worker can go on whatever the queue holds, because
      no worker puts anything into it, and when all are idle there is something to take. */
  lemma FullQueueDrains(cfg: Config, p: Producer, w: nat)
    requires cfg.Valid() && Accounted(cfg, p) && PostsAddUp(cfg, p)
    requires p.putting.Some? && |p.queue| == cfg.queueSize && w < |p.workers|
    ensures match p.workers[w]
            case Idle => Enabled(cfg, p, Take(w)) && Enabled(cfg, Next(cfg, p, Take(w)), ResumePut)
            case Awaiting(_, _, open) =>
              if open then Enabled(cfg, p, Deliver(w, true, false)) && Enabled(cfg, p, Fail(w))
              else Enabled(cfg, p, Send(w))
            case Replaying(_, _, open) => Enabled(cfg, p, if open then ReplayDone(w, None) else Send(w))
  {
    assert WithinLimit(cfg, p.workers[w]);
  }

  function Play(cfg: Config, p: Producer, moves: seq<Move>): Producer {
    if moves == [] then p
    else
      var before := Play(cfg, p, Init(moves));
      if Enabled(cfg, before, Last(moves)) then Next(cfg, before, Last(moves)) else before
  }

  /** Conservation over every run of the runtime, for every number of workers and every measure. */
  lemma {:induction false} RunConserves(w: Payload -> int, cfg: Config, moves: seq<Move>)
    requires cfg.Valid()
    ensures Accounted(cfg, Play(cfg, Started(cfg), moves))
    ensures Balanced(w, Play(cfg, Started(cfg), moves))
    ensures PostsAddUp(cfg, Play(cfg, Started(cfg), moves))
  {
    if moves == [] {
      StartedIsAccounted(w, cfg);
      NothingUnderWay(Started(cfg).workers);
    } else {
      RunConserves(w, cfg, Init(moves));
      var before := Play(cfg, Started(cfg), Init(moves));
      if Enabled(cfg, before, Last(moves)) {
        NextIsAccounted(cfg, before, Last(moves));
        NextIsBalanced(w, cfg, before, Last(moves));
        NextKeepsPosts(cfg, before, Last(moves));
      }
    }
  }

  /** Over every run the workers take events in generation order, and replays, refunds and sales are
      counted. */
  lemma {:induction false} RunIsInOrder(cfg: Config, moves: seq<Move>)
    requires cfg.Valid()
    ensures InOrder(Play(cfg, Started(cfg), moves)) && CountedByKind(Play(cfg, Started(cfg), moves))
  {
    if moves == [] {
      NoReplaysUnderWay(Started(cfg).workers);
    } else {
      hide Next, Enabled, InOrder, CountedByKind, Started;
      RunIsInOrder(cfg, Init(moves));
      var before := Play(cfg, Started(cfg), Init(moves));
      if Enabled(cfg, before, Last(moves)) {
        NextIsInOrder(cfg, before, Last(moves));
        NextIsCountedByKind(cfg, before, Last(moves));
      }
    }
  }
}
