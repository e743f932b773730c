/** The delivery runtime in place.  The ghost fields are the histories of the value model. */
module Runtimes {
  import opened Events
  import opened Settings
  import opened Ledgers
  import opened Producers
  import opened Accounts

  /** Everything a runtime guarantees between two awaits: the counters, the POSTs and the queue add up,
      and every ledger entry is backed by its sale and balanced against its refunds. */
  ghost predicate Good(cfg: Config, p: Producer) {
    && cfg.Valid()
    && Accounted(cfg, p)
    && PostsAddUp(cfg, p)
    && Sound(cfg, p)
    && Filed(p)
    && InOrder(p)
    && CountedByKind(p)
    && forall id, m :: Balanced(RefundOf(id, m), p)
  }

  lemma NextIsGood(cfg: Config, p: Producer, m: Move)
    requires Good(cfg, p) && Enabled(cfg, p, m)
    ensures Good(cfg, Next(cfg, p, m))
  {
    hide Next, Enabled, Accounted, PostsAddUp, Sound, Balanced, Filed, InOrder, CountedByKind;
    NextIsFiled(cfg, p, m);
    NextIsInOrder(cfg, p, m);
    NextIsCountedByKind(cfg, p, m);
    NextIsAccounted(cfg, p, m);
    NextKeepsPosts(cfg, p, m);
    NextIsSound(cfg, p, m);
    forall id, measure ensures Balanced(RefundOf(id, measure), Next(cfg, p, m)) {
      NextIsBalanced(RefundOf(id, measure), cfg, p, m);
    }
  }

  lemma StartedIsGood(cfg: Config)
    requires cfg.Valid()
    ensures Good(cfg, Started(cfg))
  {
    RunIsSound(cfg, []);
    RunConserves(One(), cfg, []);
    RunIsInOrder(cfg, []);
    forall id, measure ensures Balanced(RefundOf(id, measure), Started(cfg)) {
      StartedIsAccounted(RefundOf(id, measure), cfg);
    }
  }

  class Runtime {
    const config: Config
    var book: Book
    var queue: seq<Event>
    var unfinished: nat
    var putting: Option<Event>
    var workers: seq<Worker>
    var stats: Stats
    ghost var generated: seq<Payload>
    ghost var delivered: seq<Payload>
    ghost var failed: seq<Payload>
    ghost var taken: seq<Payload>
    ghost var sent: nat
    ghost var spent: nat
    ghost var replayed: nat

    constructor (config: Config)
      requires config.Valid()
      ensures this.config == config && Contents() == Started(config)
      ensures Valid()
    {
      this.config := config;
      book, queue, unfinished, putting := map[], [], 0, None;
      workers := seq(config.workerCount, i => Idle);
      stats := Stats(0, 0, 0, 0, 0, 0, 0, 0);
      generated, delivered, failed, taken, sent, spent, replayed := [], [], [], [], 0, 0, 0;
      new;
      assert workers == Started(config).workers;
      StartedIsGood(config);
    }

    ghost function Contents(): Producer
      reads this
    {
      Producer(book, queue, unfinished, putting, workers, stats, generated, delivered, failed,
               taken, sent, spent, replayed)
    }

    ghost predicate Valid()
      reads this
    {
      Good(config, Contents())
    }

    /** The counters as reported, and the queue's length.  Whatever was generated or replayed and is in
        no counter yet is queued, in a blocked put, or held by a worker that awaits a receipt; the
        queue keeps its bound; each retry counted is a POST, behind a receipt, that was not the
        first. */
    method Report() returns (s: Stats, queued: nat)
      requires Valid()
      ensures s == stats && queued == |queue|
      ensures s.generatedSales + s.generatedRefunds + s.deliberateDuplicates
              == s.deliveredAccepted + s.deliveredDuplicate + s.permanentFailures
                 + queued + (if putting.Some? then 1 else 0) + AwaitingTotal(One(), workers)
      ensures queued <= config.queueSize && unfinished == queued + Busy(workers)
      ensures s.deliberateDuplicates + s.duplicateReplayFailures + ReplaysUnderWay(workers) == replayed
      ensures s.generatedRefunds == Total(Refunding(), generated)
      ensures s.generatedSales + s.generatedRefunds == |generated|
      ensures s.retryAttempts + s.deliveredAccepted + s.deliveredDuplicate == sent - spent - UnderWay(workers)
    {
      OneCounts(Payloads(queue));
      s, queued := stats, |queue|;
    }

    /** No entry is ever overbooked or loses capacity: it adds up with the refunds of its sale. */
    lemma EntryAddsUp(id: Uuid, m: Measure) returns (i: nat)
      requires Valid() && id in book
      ensures AddsUp(Contents(), id, m, i)
    {
      i := SoundLedgerAddsUp(config, Contents(), id, m);
    }

    method Put(e: Event)
      modifies this`queue, this`unfinished, this`putting
      ensures Contents() == Enqueue(config, old(Contents()), e)
    {
      if |queue| < config.queueSize {
        queue := queue + [e];
        unfinished := unfinished + 1;
      } else {
        putting := Some(e);
      }
    }

    /** One turn of the traffic loop. */
    method Traffic(d: Draw, now: Instant)
      requires Valid() && Enabled(config, Contents(), Generate(d, now))
      modifies this
      ensures Valid() && Contents() == Next(config, old(Contents()), Generate(d, now))
    {
      hide Good;
      NextIsGood(config, Contents(), Generate(d, now));
      var (e, reserved) := MakeEvent(config, book, d, now);
      book := reserved;
      generated := generated + [e.payload];
      if e.kind.RefundOut? {
        stats := stats.(generatedRefunds := stats.generatedRefunds + 1);
      } else {
        stats := stats.(generatedSales := stats.generatedSales + 1);
      }
      Put(e);
    }

    method TrafficResumes()
      requires Valid() && Enabled(config, Contents(), ResumePut)
      modifies this
      ensures Valid() && Contents() == Next(config, old(Contents()), ResumePut)
    {
      hide Good;
      NextIsGood(config, Contents(), ResumePut);
      var e := putting.value;
      putting := None;
      Put(e);
    }

    method Get(w: nat)
      requires Valid() && Enabled(config, Contents(), Take(w))
      modifies this
      ensures Valid() && Contents() == Next(config, old(Contents()), Take(w))
      ensures workers[w].event == old(queue[0]) && queue == old(queue[1..])
    {
      hide Good;
      NextIsGood(config, Contents(), Take(w));
      var e := queue[0];
      queue := queue[1..];
      workers := workers[w := Awaiting(e, 0, false)];
      taken := taken + [e.payload];
    }

    method Post(w: nat)
      requires Valid() && Enabled(config, Contents(), Send(w))
      modifies this
      ensures Valid() && Contents() == Next(config, old(Contents()), Send(w))
    {
      hide Good;
      NextIsGood(config, Contents(), Send(w));
      workers := workers[w := Sending(workers[w])];
      sent := sent + 1;
    }

    /** The POST brought nothing definitive, and the limit leaves another. */
    method TryAgain(w: nat)
      requires Valid() && Enabled(config, Contents(), Retry(w))
      modifies this
      ensures Valid() && Contents() == Next(config, old(Contents()), Retry(w))
    {
      hide Good;
      NextIsGood(config, Contents(), Retry(w));
      workers := workers[w := workers[w].(open := false)];
    }

    method Done(w: nat)
      requires w < |workers|
      modifies this`workers, this`unfinished
      ensures Contents() == TaskDone(old(Contents()), w)
    {
      workers := workers[w := Idle];
      unfinished := if unfinished > 0 then unfinished - 1 else 0;
    }

    method Count(accepted: bool, attempts: nat)
      requires attempts >= 1
      modifies this`stats
      ensures stats == CountReceipt(old(stats), accepted, attempts)
    {
      stats := stats.(retryAttempts := stats.retryAttempts + attempts - 1);
      if accepted {
        stats := stats.(deliveredAccepted := stats.deliveredAccepted + 1);
      } else {
        stats := stats.(deliveredDuplicate := stats.deliveredDuplicate + 1);
      }
    }

    /** The delivery of an event came back with a receipt. */
    method Delivered(w: nat, accepted: bool, replay: bool)
      requires Valid() && Enabled(config, Contents(), Deliver(w, accepted, replay))
      modifies this
      ensures Valid() && Contents() == Next(config, old(Contents()), Deliver(w, accepted, replay))
      ensures w < |workers|
      ensures workers[w] == if replay then Replaying(old(workers)[w].event, 0, false) else Idle
    {
      hide Good;
      NextIsGood(config, Contents(), Deliver(w, accepted, replay));
      var e := workers[w].event;
      Count(accepted, workers[w].posts);
      book := CommitDelivery(book, e);
      delivered := delivered + [e.payload];
      if replay {
        workers := workers[w := Replaying(e, 0, false)];
        replayed := replayed + 1;
      } else {
        Done(w);
      }
    }

    /** The delivery of an event ended in an error. */
    method Failed(w: nat)
      requires Valid() && Enabled(config, Contents(), Fail(w))
      modifies this
      ensures Valid() && Contents() == Next(config, old(Contents()), Fail(w))
    {
      hide Good;
      NextIsGood(config, Contents(), Fail(w));
      var e := workers[w].event;
      book := RollbackDelivery(book, e);
      failed := failed + [e.payload];
      spent := spent + workers[w].posts;
      stats := stats.(permanentFailures := stats.permanentFailures + 1);
      Done(w);
    }

    /** The deliberate replay ended, with a receipt or an error. */
    method Replayed(w: nat, outcome: Option<bool>)
      requires Valid() && Enabled(config, Contents(), ReplayDone(w, outcome))
      modifies this
      ensures Valid() && Contents() == Next(config, old(Contents()), ReplayDone(w, outcome))
    {
      hide Good;
      NextIsGood(config, Contents(), ReplayDone(w, outcome));
      if outcome.None? {
        stats := stats.(duplicateReplayFailures := stats.duplicateReplayFailures + 1);
        spent := spent + workers[w].posts;
      } else {
        Count(outcome.value, workers[w].posts);
        stats := stats.(deliberateDuplicates := stats.deliberateDuplicates + 1);
      }
      Done(w);
    }
  }
}
