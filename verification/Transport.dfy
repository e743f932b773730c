/** Posting one immutable payload until the first definitive answer, with capped and jittered
    exponential backoff. */
module Transport {
  import opened Events
  import opened Settings

  /** What one POST can bring back; reply is the body's status field when there is one. */
  datatype Response = TransportFailure | Http(status: nat, reply: Option<string>)

  const RETRYABLE_STATUS_CODES: set<nat> := {408, 425, 429, 500, 502, 503, 504}
  const SUCCESS_STATUS_CODES: set<nat> := {200, 201}

  datatype Reaction = Delivered(accepted: bool) | Rejected | TryAgain

  function React(r: Response): Reaction {
    match r
    case TransportFailure => TryAgain
    case Http(status, reply) =>
      if status in SUCCESS_STATUS_CODES then
        if reply == Some("accepted") then Delivered(true)
        else if reply == Some("duplicate") then Delivered(false)
        else TryAgain
      else if status in RETRYABLE_STATUS_CODES then TryAgain
      else Rejected
  }

  /** The backend's answer to a finished ingestion call. */
  function Answer(v: Verdict): Response {
    Http(HttpStatus(v),
         match v
         case Accepted(_) => Some("accepted")
         case Duplicate(_) => Some("duplicate")
         case _ => None)
  }

  /** Receipts are taken as deliveries, refusals as final, internal failures as transient. */
  lemma AnswersAreUnderstood(v: Verdict)
    ensures React(Answer(v)) ==
            match v
            case Accepted(_) => Delivered(true)
            case Duplicate(_) => Delivered(false)
            case InternalError => TryAgain
            case Aborted => TryAgain
            case _ => Rejected
  {
    assert "duplicate"[0] != "accepted"[0];
  }

  /** Which outcomes of a POST are repeated: a failed transport, a success without a usable status in
      its body, and the statuses that promise that a later attempt may succeed. */
  lemma RepeatedExactly(r: Response)
    ensures React(r).TryAgain? <==>
              || r.TransportFailure?
              || ((r.status == 200 || r.status == 201) && r.reply != Some("accepted") && r.reply != Some("duplicate"))
              || r.status == 408 || r.status == 425 || r.status == 429
              || r.status == 500 || r.status == 502 || r.status == 503 || r.status == 504
    ensures React(r).Delivered? <==>
              r.Http? && (r.status == 200 || r.status == 201)
              && r.reply == Some(if React(r) == Delivered(true) then "accepted" else "duplicate")
  {
    assert "duplicate"[0] != "accepted"[0];
  }

  function Pow2(n: nat): real {
    if n == 0 then 1.0 else 2.0 * Pow2(n - 1)
  }

  function Min(a: real, b: real): real {
    if a <= b then a else b
  }

  function Base(cfg: Config, attempt: nat): real {
    Min(cfg.retryInitialSeconds * Pow2(if attempt == 0 then 0 else attempt - 1), cfg.retryMaxSeconds)
  }

  function Jitter(cfg: Config, attempt: nat): real {
    Base(cfg, attempt) * cfg.retryJitterRatio
  }

  /** A draw between lo and hi; u is its position in the unit interval. */
  function Uniform(lo: real, hi: real, u: real): real {
    lo + u * (hi - lo)
  }

  function RetryDelay(cfg: Config, attempt: nat, u: real): real {
    var base := Base(cfg, attempt);
    if base == 0.0 || cfg.retryJitterRatio == 0.0 then base
    else
      var delay := Uniform(base - Jitter(cfg, attempt), base + Jitter(cfg, attempt), u);
      if delay < 0.0 then 0.0 else delay
  }

  /** The sleep after the first k failed attempts. */
  function TotalDelay(cfg: Config, draws: seq<real>, k: nat): real
    requires k <= |draws|
  {
    if k == 0 then 0.0 else TotalDelay(cfg, draws, k - 1) + RetryDelay(cfg, k, draws[k - 1])
  }

  // ---------------------------------------------------------------- backoff bounds

  lemma Scale(a: real, b: real, c: real)
    requires a <= b && 0.0 <= c
    ensures a * c <= b * c
  {
  }

  lemma {:induction false} Pow2Positive(n: nat)
    ensures Pow2(n) >= 1.0
  {
    if n > 0 {
      Pow2Positive(n - 1);
    }
  }

  /** The base never decreases and never passes the cap. */
  lemma BaseIsMonotoneAndCapped(cfg: Config, attempt: nat)
    requires cfg.Valid()
    ensures 0.0 <= Base(cfg, attempt) <= Base(cfg, attempt + 1) <= cfg.retryMaxSeconds
  {
    Pow2Positive(attempt);
    Pow2Positive(if attempt == 0 then 0 else attempt - 1);
    if attempt > 0 {
      assert Pow2(attempt) == 2.0 * Pow2(attempt - 1);
      Scale(Pow2(attempt - 1), Pow2(attempt), cfg.retryInitialSeconds);
      Scale(0.0, cfg.retryInitialSeconds, Pow2(attempt - 1));
    }
  }

  lemma Doubled(x: real, y: real)
    ensures x * (2.0 * y) == 2.0 * (x * y)
  {
  }

  /** Exponential backoff: the first base is the initial delay, and each further one is twice the last,
      up to the cap. */
  lemma BaseDoubles(cfg: Config, attempt: nat)
    requires cfg.Valid()
    ensures Base(cfg, 0) == Base(cfg, 1) == cfg.retryInitialSeconds
    ensures attempt >= 1 ==> Base(cfg, attempt + 1) == Min(2.0 * Base(cfg, attempt), cfg.retryMaxSeconds)
  {
    if attempt >= 1 {
      assert Pow2(attempt) == 2.0 * Pow2(attempt - 1);
      var x := cfg.retryInitialSeconds * Pow2(attempt - 1);
      Pow2Positive(attempt - 1);
      Scale(0.0, cfg.retryInitialSeconds, Pow2(attempt - 1));
      Doubled(cfg.retryInitialSeconds, Pow2(attempt - 1));
    }
  }

  lemma UniformIsBetween(lo: real, hi: real, u: real)
    requires lo <= hi && 0.0 <= u <= 1.0
    ensures lo <= Uniform(lo, hi, u) <= hi
  {
    Scale(0.0, u, hi - lo);
    Scale(u, 1.0, hi - lo);
  }

  lemma JitterIsWithinBase(cfg: Config, attempt: nat)
    requires cfg.Valid()
    ensures 0.0 <= Jitter(cfg, attempt) <= Base(cfg, attempt)
    ensures Base(cfg, attempt) + Jitter(cfg, attempt) == (1.0 + cfg.retryJitterRatio) * Base(cfg, attempt)
    ensures Base(cfg, attempt) - Jitter(cfg, attempt) == (1.0 - cfg.retryJitterRatio) * Base(cfg, attempt)
  {
    hide Base;
    var base := Base(cfg, attempt);
    BaseIsMonotoneAndCapped(cfg, attempt);
    Scale(0.0, cfg.retryJitterRatio, base);
    Scale(cfg.retryJitterRatio, 1.0, base);
    assert base * cfg.retryJitterRatio == cfg.retryJitterRatio * base;
    assert 1.0 * base == base;
  }

  /** The most that jitter can make of x. */
  function Stretched(cfg: Config, x: real): real {
    (1.0 + cfg.retryJitterRatio) * x
  }

  lemma StretchedIsLinear(cfg: Config, x: real, y: real)
    ensures Stretched(cfg, x) + Stretched(cfg, y) == Stretched(cfg, x + y)
    ensures Stretched(cfg, 0.0) == 0.0
  {
  }

  lemma StretchedIsMonotone(cfg: Config, x: real, y: real)
    requires cfg.Valid() && x <= y
    ensures Stretched(cfg, x) <= Stretched(cfg, y)
  {
    StretchedIsLinear(cfg, x, y - x);
    Scale(0.0, 1.0 + cfg.retryJitterRatio, y - x);
    assert x + (y - x) == y;
  }

  /** The least that jitter can make of x. */
  function Shrunk(cfg: Config, x: real): real {
    (1.0 - cfg.retryJitterRatio) * x
  }

  lemma ShrunkIsLinear(cfg: Config, x: real, y: real)
    ensures Shrunk(cfg, x) + Shrunk(cfg, y) == Shrunk(cfg, x + y)
    ensures Shrunk(cfg, 0.0) == 0.0
  {
  }

  /** Each delay is within the jitter ratio of its base. */
  lemma DelayIsNearBase(cfg: Config, attempt: nat, u: real)
    requires cfg.Valid() && 0.0 <= u <= 1.0
    ensures Shrunk(cfg, Base(cfg, attempt)) <= RetryDelay(cfg, attempt, u)
    ensures 0.0 <= RetryDelay(cfg, attempt, u) <= Stretched(cfg, Base(cfg, attempt))
  {
    JitterIsWithinBase(cfg, attempt);
    BaseIsMonotoneAndCapped(cfg, attempt);
    UniformIsBetween(Base(cfg, attempt) - Jitter(cfg, attempt), Base(cfg, attempt) + Jitter(cfg, attempt), u);
  }

  /** The draw reaches both ends of the jitter band. */
  lemma DelayReachesBothEnds(cfg: Config, attempt: nat)
    requires cfg.Valid()
    ensures RetryDelay(cfg, attempt, 0.0) == Shrunk(cfg, Base(cfg, attempt))
    ensures RetryDelay(cfg, attempt, 1.0) == Stretched(cfg, Base(cfg, attempt))
  {
    JitterIsWithinBase(cfg, attempt);
    BaseIsMonotoneAndCapped(cfg, attempt);
    hide Base;
    assert Uniform(Base(cfg, attempt) - Jitter(cfg, attempt), Base(cfg, attempt) + Jitter(cfg, attempt), 1.0)
        == Base(cfg, attempt) + Jitter(cfg, attempt);
  }

  function TotalBase(cfg: Config, k: nat): real {
    if k == 0 then 0.0 else TotalBase(cfg, k - 1) + Base(cfg, k)
  }

  function Linear(cfg: Config, k: nat): real {
    cfg.retryMaxSeconds * k as real
  }

  function Geometric(cfg: Config, k: nat): real {
    cfg.retryInitialSeconds * (Pow2(k) - 1.0)
  }

  lemma LinearStep(cfg: Config, k: nat)
    requires cfg.Valid()
    ensures Linear(cfg, k + 1) == Linear(cfg, k) + cfg.retryMaxSeconds && Linear(cfg, 0) == 0.0
    ensures Base(cfg, k + 1) <= cfg.retryMaxSeconds
  {
    BaseIsMonotoneAndCapped(cfg, k + 1);
    assert (k + 1) as real == k as real + 1.0;
  }

  lemma GeometricStep(cfg: Config, k: nat)
    ensures Geometric(cfg, k + 1) >= Geometric(cfg, k) + Base(cfg, k + 1) && Geometric(cfg, 0) == 0.0
  {
    assert Pow2(k + 1) - 1.0 == (Pow2(k) - 1.0) + Pow2(k);
  }

  lemma {:induction false} TotalBaseIsBounded(cfg: Config, k: nat)
    requires cfg.Valid()
    ensures TotalBase(cfg, k) <= Linear(cfg, k) && TotalBase(cfg, k) <= Geometric(cfg, k)
  {
    hide Linear, Geometric, Base, Pow2;
    if k == 0 {
      LinearStep(cfg, 0);
      GeometricStep(cfg, 0);
    } else {
      TotalBaseIsBounded(cfg, k - 1);
      LinearStep(cfg, k - 1);
      GeometricStep(cfg, k - 1);
    }
  }

  lemma {:induction false} TotalDelayIsNearBase(cfg: Config, draws: seq<real>, k: nat)
    requires cfg.Valid() && k <= |draws|
    requires forall i | 0 <= i < |draws| :: 0.0 <= draws[i] <= 1.0
    ensures 0.0 <= TotalDelay(cfg, draws, k)
    ensures Shrunk(cfg, TotalBase(cfg, k)) <= TotalDelay(cfg, draws, k) <= Stretched(cfg, TotalBase(cfg, k))
  {
    hide Stretched, Shrunk, Base, RetryDelay;
    if k == 0 {
      StretchedIsLinear(cfg, 0.0, 0.0);
      ShrunkIsLinear(cfg, 0.0, 0.0);
    } else {
      TotalDelayIsNearBase(cfg, draws, k - 1);
      DelayIsNearBase(cfg, k, draws[k - 1]);
      StretchedIsLinear(cfg, TotalBase(cfg, k - 1), Base(cfg, k));
      ShrunkIsLinear(cfg, TotalBase(cfg, k - 1), Base(cfg, k));
    }
  }

  lemma GeometricGrows(cfg: Config, k: nat)
    ensures Geometric(cfg, k + 1) == Geometric(cfg, k) + cfg.retryInitialSeconds * Pow2(k)
    ensures Geometric(cfg, 0) == 0.0
  {
    assert Pow2(k + 1) - 1.0 == (Pow2(k) - 1.0) + Pow2(k);
  }

  /** Until the cap is reached the bases add up to the whole geometric sum. */
  lemma {:induction false} UncappedIsGeometric(cfg: Config, k: nat)
    requires cfg.Valid() && (k >= 1 ==> cfg.retryInitialSeconds * Pow2(k - 1) <= cfg.retryMaxSeconds)
    ensures TotalBase(cfg, k) == Geometric(cfg, k)
  {
    if k >= 1 {
      Pow2Positive(k - 1);
      if k >= 2 {
        Pow2Positive(k - 2);
        Scale(Pow2(k - 2), Pow2(k - 1), cfg.retryInitialSeconds);
      }
      UncappedIsGeometric(cfg, k - 1);
      GeometricGrows(cfg, k - 1);
    }
  }

  /** All sleep of k failures: at least the bases with the jitter off, linear in the cap and geometric
      in the first delay. */
  lemma TotalDelayIsBounded(cfg: Config, draws: seq<real>, k: nat)
    requires cfg.Valid() && k <= |draws|
    requires forall i | 0 <= i < |draws| :: 0.0 <= draws[i] <= 1.0
    ensures 0.0 <= TotalDelay(cfg, draws, k)
    ensures Shrunk(cfg, TotalBase(cfg, k)) <= TotalDelay(cfg, draws, k)
    ensures TotalDelay(cfg, draws, k) <= Stretched(cfg, Min(Linear(cfg, k), Geometric(cfg, k)))
  {
    hide Shrunk, Stretched, Linear, Geometric, TotalDelay, TotalBase;
    TotalDelayIsNearBase(cfg, draws, k);
    TotalBaseIsBounded(cfg, k);
    StretchedIsMonotone(cfg, TotalBase(cfg, k), Min(Linear(cfg, k), Geometric(cfg, k)));
  }

  // ---------------------------------------------------------------- the loop

  datatype Outcome =
    | Receipted(accepted: bool, httpStatus: nat)
    | PermanentError(httpStatus: nat)
    | RetryExhausted
    | Waiting            // the answers given so far do not end the loop

  /** The position of the first answer that ends the loop by itself. */
  function FirstDefinitive(responses: seq<Response>): (n: nat)
    ensures n <= |responses|
    ensures forall i | 0 <= i < n :: React(responses[i]).TryAgain?
    ensures n < |responses| ==> !React(responses[n]).TryAgain?
  {
    if responses == [] then 0
    else if React(responses[0]).TryAgain? then 1 + FirstDefinitive(responses[1..])
    else 0
  }

  lemma NoneBefore(responses: seq<Response>, n: nat)
    requires n <= |responses| && forall i | 0 <= i < n :: React(responses[i]).TryAgain?
    ensures FirstDefinitive(responses) >= n
  {
    assert !(FirstDefinitive(responses) < n);
  }

  lemma FirstDefinitiveIs(responses: seq<Response>, n: nat)
    requires n <= |responses|
    requires forall i | 0 <= i < n :: React(responses[i]).TryAgain?
    requires n < |responses| ==> !React(responses[n]).TryAgain?
    ensures FirstDefinitive(responses) == n
  {
    NoneBefore(responses, n);
    assert !(n < FirstDefinitive(responses));
  }

  function Conclusion(r: Response): Outcome {
    match r
    case TransportFailure => Waiting
    case Http(status, _) =>
      match React(r)
      case Delivered(accepted) => Receipted(accepted, status)
      case Rejected => PermanentError(status)
      case TryAgain => Waiting
  }

  /** The first definitive answer decides, within the attempt limit if there is one; the second
      component counts the POSTs. */
  function TakeFirst(maxAttempts: nat, responses: seq<Response>): (Outcome, nat) {
    var n := FirstDefinitive(responses);
    if maxAttempts > 0 && n >= maxAttempts then (RetryExhausted, maxAttempts)
    else if n < |responses| then (Conclusion(responses[n]), n + 1)
    else (Waiting, |responses| + 1)
  }

  /** Exhaustion is reported exactly when the limit's worth of answers are all retryable. */
  lemma ExhaustedExactly(maxAttempts: nat, responses: seq<Response>)
    ensures TakeFirst(maxAttempts, responses).0.RetryExhausted? <==>
            && 0 < maxAttempts <= |responses|
            && forall i | 0 <= i < maxAttempts :: React(responses[i]).TryAgain?
  {
    if 0 < maxAttempts <= |responses| && forall i | 0 <= i < maxAttempts :: React(responses[i]).TryAgain? {
      NoneBefore(responses, maxAttempts);
    }
  }

  /** A receipt and a permanent error come from the last POST's answer, behind retryable ones only. */
  lemma ConclusionExactly(maxAttempts: nat, responses: seq<Response>)
    ensures
      var (outcome, n) := TakeFirst(maxAttempts, responses);
      (outcome.Receipted? || outcome.PermanentError?) ==>
        && 1 <= n <= |responses| && (maxAttempts > 0 ==> n <= maxAttempts)
        && (forall i | 0 <= i < n - 1 :: React(responses[i]).TryAgain?)
        && responses[n - 1].Http? && responses[n - 1].status == outcome.httpStatus
        && React(responses[n - 1]) == if outcome.Receipted? then Delivered(outcome.accepted) else Rejected
    ensures
      var (outcome, n) := TakeFirst(maxAttempts, responses);
      outcome.Waiting? <==>
        && (maxAttempts > 0 ==> |responses| < maxAttempts)
        && forall i | 0 <= i < |responses| :: React(responses[i]).TryAgain?
  {
    if forall i | 0 <= i < |responses| :: React(responses[i]).TryAgain? {
      NoneBefore(responses, |responses|);
    }
  }

  /** The answers arrive one per POST; posts is what went over the wire. */
  method PostEventWithRetry(cfg: Config, payload: Payload, responses: seq<Response>, draws: seq<real>)
    returns (outcome: Outcome, attempts: nat, posts: seq<Payload>, slept: real)
    requires cfg.Valid() && |draws| == |responses|
    requires forall i | 0 <= i < |draws| :: 0.0 <= draws[i] <= 1.0
    ensures |posts| == attempts && forall i | 0 <= i < |posts| :: posts[i] == payload
    ensures 1 <= attempts && (cfg.maxRetryAttempts > 0 ==> attempts <= cfg.maxRetryAttempts)
    ensures (outcome, attempts) == TakeFirst(cfg.maxRetryAttempts, responses)
    ensures slept == TotalDelay(cfg, draws, attempts - 1)
    ensures Shrunk(cfg, TotalBase(cfg, attempts - 1)) <= slept
    ensures slept <= Stretched(cfg, Min(Linear(cfg, attempts - 1), Geometric(cfg, attempts - 1)))
  {
    forall k: nat | k <= |draws|
      ensures Shrunk(cfg, TotalBase(cfg, k)) <= TotalDelay(cfg, draws, k)
      ensures TotalDelay(cfg, draws, k) <= Stretched(cfg, Min(Linear(cfg, k), Geometric(cfg, k)))
    {
      TotalDelayIsBounded(cfg, draws, k);
    }
    hide Shrunk, Stretched, Linear, Geometric, TotalBase;
    attempts, posts, slept := 0, [], 0.0;
    while true
      invariant attempts <= |responses| && |posts| == attempts
      invariant forall i | 0 <= i < |posts| :: posts[i] == payload
      invariant forall i | 0 <= i < attempts :: React(responses[i]).TryAgain?
      invariant cfg.maxRetryAttempts > 0 ==> attempts < cfg.maxRetryAttempts
      invariant slept == TotalDelay(cfg, draws, attempts)
      decreases |responses| - attempts
    {
      attempts := attempts + 1;
      posts := posts + [payload];
      if attempts > |responses| {
        FirstDefinitiveIs(responses, |responses|);
        return Waiting, attempts, posts, slept;
      }
      var response := responses[attempts - 1];
      if !React(response).TryAgain? {
        FirstDefinitiveIs(responses, attempts - 1);
        return Conclusion(response), attempts, posts, slept;
      }
      if cfg.maxRetryAttempts > 0 && attempts >= cfg.maxRetryAttempts {
        NoneBefore(responses, attempts);
        return RetryExhausted, attempts, posts, slept;
      }
      slept := slept + RetryDelay(cfg, attempts, draws[attempts - 1]);
    }
  }
}
