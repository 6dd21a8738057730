/** Processor configuration, its validation and its builder (`src/config.rs`). */
module Config {
  import opened Wrappers
  import opened Errors

  /** A `std::time::Duration`, counted in nanoseconds. */
  type Duration = nat

  const MILLIS: nat := 1_000_000
  const SECONDS: nat := 1_000_000_000

  datatype RetryConfig = RetryConfig(
    maxAttempts: nat,
    initialBackoff: Duration,
    maxBackoff: Duration,
    backoffMultiplier: real)

  datatype ProcessorConfig = ProcessorConfig(
    maxBatchSize: nat,
    maxWorkers: nat,
    operationTimeout: Duration,
    enableMetrics: bool,
    enableTracing: bool,
    retryConfig: RetryConfig,
    bufferSize: nat,
    enableCompression: bool)

  /** `RetryConfig::default`: three attempts, backing off from 100 ms up to 10 s, doubling each time. */
  function DefaultRetry(): (r: RetryConfig)
    ensures ValidateRetry(r) == Pass
    ensures r.maxAttempts == 3 && r.backoffMultiplier == 2.0
    ensures r.initialBackoff == 100 * MILLIS && r.maxBackoff == 10 * SECONDS
  {
    RetryConfig(3, 100 * MILLIS, 10 * SECONDS, 2.0)
  }

  /** `ProcessorConfig::default`; the number of CPUs the operating system reports is a parameter. */
  function Default(numCpus: nat): (c: ProcessorConfig)
    ensures c.maxWorkers == numCpus && c.retryConfig == DefaultRetry()
    ensures c.maxBatchSize == 100 && c.bufferSize == 1000 && c.operationTimeout == 30 * SECONDS
    ensures c.enableMetrics && c.enableTracing && !c.enableCompression
  {
    ProcessorConfig(100, numCpus, 30 * SECONDS, true, true, DefaultRetry(), 1000, false)
  }

  /**
   * `RetryConfig::validate`: at least one attempt, a multiplier above 1.0, and an initial
   * backoff no longer than the maximum, checked in that order.
   */
  function ValidateRetry(r: RetryConfig): (o: Outcome<Error>)
    ensures o.Pass? <==> r.maxAttempts > 0 && r.backoffMultiplier > 1.0 && r.initialBackoff <= r.maxBackoff
    ensures o.Fail? ==> o.error.Config?
    ensures r.maxAttempts == 0 ==> o == Fail(Config("max_attempts must be greater than 0"))
    ensures r.maxAttempts > 0 && r.backoffMultiplier <= 1.0 ==>
      o == Fail(Config("backoff_multiplier must be greater than 1.0"))
    ensures r.maxAttempts > 0 && r.backoffMultiplier > 1.0 && r.initialBackoff > r.maxBackoff ==>
      o == Fail(Config("initial_backoff cannot be greater than max_backoff"))
  {
    if r.maxAttempts == 0 then Fail(Config("max_attempts must be greater than 0"))
    else if r.backoffMultiplier <= 1.0 then Fail(Config("backoff_multiplier must be greater than 1.0"))
    else if r.initialBackoff > r.maxBackoff then Fail(Config("initial_backoff cannot be greater than max_backoff"))
    else Pass
  }

  /**
   * `ProcessorConfig::validate`: a positive batch size, worker count and buffer size,
   * checked in that order, and then a valid retry configuration.
   */
  function Validate(c: ProcessorConfig): (o: Outcome<Error>)
    ensures o.Pass? <==> c.maxBatchSize > 0 && c.maxWorkers > 0 && c.bufferSize > 0 && ValidateRetry(c.retryConfig).Pass?
    ensures o.Fail? ==> o.error.Config?
    ensures c.maxBatchSize == 0 ==> o == Fail(Config("max_batch_size must be greater than 0"))
    ensures c.maxBatchSize > 0 && c.maxWorkers == 0 ==> o == Fail(Config("max_workers must be greater than 0"))
    ensures c.maxBatchSize > 0 && c.maxWorkers > 0 && c.bufferSize == 0 ==>
      o == Fail(Config("buffer_size must be greater than 0"))
    ensures c.maxBatchSize > 0 && c.maxWorkers > 0 && c.bufferSize > 0 ==> o == ValidateRetry(c.retryConfig)
  {
    if c.maxBatchSize == 0 then Fail(Config("max_batch_size must be greater than 0"))
    else if c.maxWorkers == 0 then Fail(Config("max_workers must be greater than 0"))
    else if c.bufferSize == 0 then Fail(Config("buffer_size must be greater than 0"))
    else ValidateRetry(c.retryConfig)
  }

  /** The default configuration is valid on every machine with at least one CPU. */
  lemma DefaultIsValid(numCpus: nat)
    requires numCpus >= 1
    ensures Validate(Default(numCpus)) == Pass
  {
  }

  /** `ProcessorConfigBuilder`: a configuration being edited, starting from the default. */
  datatype ProcessorConfigBuilder = ProcessorConfigBuilder(config: ProcessorConfig)
  {
    function WithMaxBatchSize(size: nat): (b: ProcessorConfigBuilder)
      ensures b.config.maxBatchSize == size
      ensures b.config == config.(maxBatchSize := b.config.maxBatchSize)
    {
      ProcessorConfigBuilder(config.(maxBatchSize := size))
    }

    function WithMaxWorkers(workers: nat): (b: ProcessorConfigBuilder)
      ensures b.config.maxWorkers == workers
      ensures b.config == config.(maxWorkers := b.config.maxWorkers)
    {
      ProcessorConfigBuilder(config.(maxWorkers := workers))
    }

    function WithOperationTimeout(timeout: Duration): (b: ProcessorConfigBuilder)
      ensures b.config.operationTimeout == timeout
      ensures b.config == config.(operationTimeout := b.config.operationTimeout)
    {
      ProcessorConfigBuilder(config.(operationTimeout := timeout))
    }

    function WithEnableMetrics(enabled: bool): (b: ProcessorConfigBuilder)
      ensures b.config.enableMetrics == enabled
      ensures b.config == config.(enableMetrics := b.config.enableMetrics)
    {
      ProcessorConfigBuilder(config.(enableMetrics := enabled))
    }

    function WithEnableTracing(enabled: bool): (b: ProcessorConfigBuilder)
      ensures b.config.enableTracing == enabled
      ensures b.config == config.(enableTracing := b.config.enableTracing)
    {
      ProcessorConfigBuilder(config.(enableTracing := enabled))
    }

    function WithRetryConfig(retry: RetryConfig): (b: ProcessorConfigBuilder)
      ensures b.config.retryConfig == retry
      ensures b.config == config.(retryConfig := b.config.retryConfig)
    {
      ProcessorConfigBuilder(config.(retryConfig := retry))
    }

    function WithBufferSize(size: nat): (b: ProcessorConfigBuilder)
      ensures b.config.bufferSize == size
      ensures b.config == config.(bufferSize := b.config.bufferSize)
    {
      ProcessorConfigBuilder(config.(bufferSize := size))
    }

    function WithEnableCompression(enabled: bool): (b: ProcessorConfigBuilder)
      ensures b.config.enableCompression == enabled
      ensures b.config == config.(enableCompression := b.config.enableCompression)
    {
      ProcessorConfigBuilder(config.(enableCompression := enabled))
    }

    /** `build`: the configuration as it stands, not validated. */
    function Build(): (c: ProcessorConfig)
      ensures c == config
    {
      config
    }

    /** `build_validated`: the configuration exactly when it validates, else the validation error. */
    function BuildValidated(): (r: Result<ProcessorConfig, Error>)
      ensures r.Success? <==> Validate(config).Pass?
      ensures r.Success? ==> r.value == Build()
      ensures r.Failure? ==> Validate(config) == Fail(r.error)
    {
      match Validate(config)
      case Fail(e) => Failure(e)
      case Pass => Success(config)
    }
  }

  /** `ProcessorConfigBuilder::new`. */
  function NewBuilder(numCpus: nat): (b: ProcessorConfigBuilder)
    ensures b.Build() == Default(numCpus)
    ensures numCpus >= 1 ==> b.BuildValidated() == Success(Default(numCpus))
  {
    ProcessorConfigBuilder(Default(numCpus))
  }

  /** A zero batch size set through the builder is rejected, whatever else was set. */
  lemma ZeroBatchSizeRejected(numCpus: nat, workers: nat)
    ensures NewBuilder(numCpus).WithMaxBatchSize(0).WithMaxWorkers(workers).BuildValidated()
            == Failure(Config("max_batch_size must be greater than 0"))
  {
  }

  /** Any configuration whose three sizes are positive and whose retry settings are sound is accepted. */
  lemma PositiveSizesAccepted(c: ProcessorConfig)
    requires c.maxBatchSize > 0 && c.maxWorkers > 0 && c.bufferSize > 0
    requires c.retryConfig == DefaultRetry()
    ensures Validate(c) == Pass
  {
  }
}
