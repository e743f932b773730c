/** A worker of the runtime, post by post, does what the retry loop does with the same answers. */
module RetryLoop {
  import opened Events
  import opened Settings
  import opened Transport
  import opened Ledgers
  import opened Producers
  import opened Delivery

  /** The worker posts, and the POST has this outcome. */
  function Heard(cfg: Config, p: Producer, worker: nat, r: Response, replay: bool): Producer {
    Handle(cfg, MoveIf(cfg, p, Send(worker)), worker, React(r), replay)
  }

  function Converse(cfg: Config, p: Producer, worker: nat, responses: seq<Response>, replay: bool): Producer {
    if responses == [] then p
    else Heard(cfg, Converse(cfg, p, worker, Init(responses), replay), worker, Last(responses), replay)
  }

  /** After n more POSTs. */
  function Posted(p: Producer, worker: nat, n: nat, open: bool): Producer
    requires IsBusy(p, worker)
  {
    p.(workers := p.workers[worker := p.workers[worker].(posts := n, open := open)], sent := p.sent + n)
  }

  predicate AboutToPost(p: Producer, worker: nat) {
    IsBusy(p, worker) && p.workers[worker].posts == 0 && !p.workers[worker].open
  }

  lemma OneMorePost(cfg: Config, p: Producer, worker: nat, n: nat)
    requires AboutToPost(p, worker) && n >= 1
    ensures MoveIf(cfg, Posted(p, worker, n - 1, false), Send(worker)) == Posted(p, worker, n, true)
  {
    var before := Posted(p, worker, n - 1, false);
    assert Next(cfg, before, Send(worker)).workers == Posted(p, worker, n, true).workers;
  }

  lemma {:induction false} RetriedAlong(cfg: Config, p: Producer, worker: nat, responses: seq<Response>, replay: bool)
    requires AboutToPost(p, worker) && !cfg.LimitReached(|responses|)
    requires forall i | 0 <= i < |responses| :: React(responses[i]).TryAgain?
    ensures Converse(cfg, p, worker, responses, replay) == Posted(p, worker, |responses|, false)
  {
    var n := |responses|;
    if n == 0 {
      assert p.workers[worker := p.workers[worker]] == p.workers;
    } else {
      RetriedAlong(cfg, p, worker, Init(responses), replay);
      var before := Posted(p, worker, n - 1, false);
      OneMorePost(cfg, p, worker, n);
      assert before.workers[worker].posts == n - 1;
      assert Last(responses) == responses[n - 1];
      var open := Posted(p, worker, n, true);
      assert Next(cfg, open, Retry(worker)).workers == Posted(p, worker, n, false).workers;
    }
  }

  /** The worker's move for an outcome of the loop. */
  function Conclude(cfg: Config, p: Producer, worker: nat, outcome: Outcome, replay: bool): Move
    requires IsBusy(p, worker)
  {
    match outcome
    case Receipted(accepted, _) => Reply(cfg, p, worker, Delivered(accepted), replay)
    case _ => GiveUp(p, worker)
  }

  lemma EndsTheSame(cfg: Config, p: Producer, worker: nat, responses: seq<Response>, replay: bool)
    requires cfg.Valid() && IsOpen(p, worker)
    requires
      var (outcome, n) := TakeFirst(cfg.maxRetryAttempts, responses);
      !outcome.Waiting? && 1 <= n <= |responses| && p.workers[worker].posts == n
    ensures
      var (outcome, n) := TakeFirst(cfg.maxRetryAttempts, responses);
      Reply(cfg, p, worker, React(responses[n - 1]), replay) == Conclude(cfg, p, worker, outcome, replay)
  {
  }

  /** Whatever the answers, a worker makes the loop's number of POSTs and ends as the loop does: with
      the receipt, or giving up on a permanent error or at the limit; and as long as the loop waits,
      the worker goes on. */
  lemma WorkerTakesFirst(cfg: Config, p: Producer, worker: nat, responses: seq<Response>, replay: bool)
    requires cfg.Valid() && AboutToPost(p, worker)
    ensures
      var (outcome, n) := TakeFirst(cfg.maxRetryAttempts, responses);
      if outcome.Waiting? then Converse(cfg, p, worker, responses, replay) == Posted(p, worker, |responses|, false)
      else
        && 1 <= n <= |responses|
        && Converse(cfg, p, worker, responses[..n], replay)
           == MoveIf(cfg, Posted(p, worker, n, true),
                     Conclude(cfg, Posted(p, worker, n, true), worker, outcome, replay))
  {
    hide Next, CommitDelivery, Enabled;
    var (outcome, n) := TakeFirst(cfg.maxRetryAttempts, responses);
    if outcome.Waiting? {
      RetriedAlong(cfg, p, worker, responses, replay);
    } else {
      assert Init(responses[..n]) == responses[..n - 1];
      assert Last(responses[..n]) == responses[n - 1];
      RetriedAlong(cfg, p, worker, responses[..n - 1], replay);
      OneMorePost(cfg, p, worker, n);
      assert IsOpen(Posted(p, worker, n, true), worker);
      EndsTheSame(cfg, Posted(p, worker, n, true), worker, responses, replay);
    }
  }
}
