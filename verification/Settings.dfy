/** One simulator's configuration, as far as the model uses it. */
module Settings {

  datatype Config = Config(
    storeCode: string,
    instanceLabel: string,
    maxLateSeconds: int,
    maxQuantity: int,
    queueSize: int,
    workerCount: int,
    retryInitialSeconds: real,
    retryMaxSeconds: real,
    retryJitterRatio: real,
    maxRetryAttempts: int)
  {
    /** What the configuration's own validation guarantees. */
    predicate Valid() {
      && maxLateSeconds >= 1 && maxQuantity >= 1 && queueSize >= 1 && workerCount >= 1
      && 0.0 <= retryInitialSeconds <= retryMaxSeconds && 0.0 <= retryJitterRatio <= 1.0
      && maxRetryAttempts >= 0
    }

    /** Zero means no limit. */
    predicate LimitReached(attempts: nat) {
      maxRetryAttempts > 0 && attempts >= maxRetryAttempts
    }
  }
}
