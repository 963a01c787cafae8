/** The consumer builder: merges operator parameters with the defaults a
    storage's stream loader declares, resolves the topics, picks the commit
    retry policy and assembles the stream processor. */
module Consumers {
  import opened Wrappers

  type StorageKey = string
  type StorageSetKey = string
  /** The logical (unsliced) name of a topic. */
  type LogicalTopic = string

  /** A physical topic, as handed to the Kafka client. */
  datatype Topic = Topic(name: string)

  /** A topic declared by a stream loader: its logical name and the physical
      name it takes under a slice id (`None`: the unsliced name). */
  datatype TopicSpec = TopicSpec(topic: LogicalTopic, physicalName: Option<int> -> string)

  // Opaque handles for objects the builder only passes along.
  datatype Processor = Processor(name: string)
  datatype PreFilter = PreFilter(name: string)
  datatype DeadLetterQueuePolicyCreator = DeadLetterQueuePolicyCreator(name: string)
  datatype Metrics = Metrics(name: string)
  datatype StatsCallback = StatsCallback(name: string)
  /** The worker initialiser handed to the strategy factory (`setup_sentry`). */
  datatype Initializer = SetupSentry

  /** What a storage's stream loader declares. */
  datatype StreamLoader = StreamLoader(
    defaultTopicSpec: TopicSpec,
    replacementTopicSpec: Option<TopicSpec>,
    commitLogTopicSpec: Option<TopicSpec>,
    processor: Processor,
    preFilter: PreFilter,
    deadLetterQueuePolicyCreator: DeadLetterQueuePolicyCreator)

  datatype TableWriter = TableWriter(table: string, streamLoader: StreamLoader)

  datatype WritableStorage = WritableStorage(storageSetKey: StorageSetKey, tableWriter: TableWriter)

  /** Operator-supplied Kafka parameters. */
  datatype KafkaParameters = KafkaParameters(
    rawTopic: Option<string>,
    replacementsTopic: Option<string>,
    bootstrapServers: Option<seq<string>>,
    groupId: string,
    commitLogTopic: Option<string>,
    autoOffsetReset: string,
    strictOffsetReset: Option<bool>,
    queuedMaxMessagesKbytes: int,
    queuedMinMessages: int)

  /** Operator-supplied parallelism parameters. */
  datatype ProcessingParameters = ProcessingParameters(
    processes: Option<int>,
    inputBlockSize: Option<int>,
    outputBlockSize: Option<int>)

  /** A value in a librdkafka configuration dictionary. */
  datatype ConfigValue = CStr(s: string) | CInt(i: int) | CBool(b: bool) | CCallback(callback: Option<StatsCallback>)

  type BrokerConfig = map<string, ConfigValue>

  /** The arguments of `build_kafka_consumer_configuration`. */
  datatype ConsumerConfigRequest = ConsumerConfigRequest(
    topic: LogicalTopic,
    bootstrapServers: Option<seq<string>>,
    groupId: string,
    sliceId: Option<int>,
    autoOffsetReset: string,
    strictOffsetReset: Option<bool>,
    queuedMaxMessagesKbytes: int,
    queuedMinMessages: int)

  /** The code the builder calls but does not own, as total functions:
      storage lookup, slice validation, the Kafka configuration library
      and the runtime configuration store. */
  datatype Collaborators = Collaborators(
    getWritableStorage: StorageKey -> WritableStorage,
    validatePassedSlice: (StorageSetKey, Option<int>) -> bool,
    defaultKafkaConfiguration: (LogicalTopic, Option<int>, Option<seq<string>>) -> BrokerConfig,
    producerConfigurationDefaults: (LogicalTopic, Option<int>, Option<seq<string>>) -> BrokerConfig,
    consumerConfiguration: ConsumerConfigRequest -> BrokerConfig,
    getConfig: string -> Option<int>)

  /** Raised when the slice id does not fit the storage set. */
  datatype ConfigurationError = InvalidSlice(storageSet: StorageSetKey, sliceId: Option<int>)

  // ---------------------------------------------------------------------
  // Topic resolution

  /** The raw topic: the override when one is given, otherwise the default
      topic spec's physical name under the slice. */
  function RawTopic(override: Option<string>, spec: TopicSpec, sliceId: Option<int>): (t: Topic)
    ensures override.Some? ==> t.name == override.value
    ensures override.None? ==> t.name == spec.physicalName(sliceId)
  {
    if override.Some? then Topic(override.value) else Topic(spec.physicalName(sliceId))
  }

  /** The replacements and commit-log topics: the override when one is given
      (even if a spec is declared), otherwise the declared spec's physical
      name under the slice, otherwise absent. */
  function OptionalTopic(override: Option<string>, spec: Option<TopicSpec>, sliceId: Option<int>): (t: Option<Topic>)
    ensures t.None? <==> override.None? && spec.None?
    ensures override.Some? ==> t == Some(Topic(override.value))
    ensures override.None? && spec.Some? ==> t == Some(Topic(spec.value.physicalName(sliceId)))
  {
    if override.Some? then Some(Topic(override.value))
    else if spec.Some? then Some(Topic(spec.value.physicalName(sliceId)))
    else None
  }

  // ---------------------------------------------------------------------
  // Broker configuration

  /** The two values the producer configuration is always built with. */
  const ProducerOverrides: BrokerConfig :=
    map["partitioner" := CStr("consistent"), "message.max.bytes" := CInt(50000000)]

  /** `build_kafka_producer_configuration` with override parameters: the
      library's defaults, with every override key replaced by its value. */
  function BuildProducerConfiguration(env: Collaborators, topic: LogicalTopic, sliceId: Option<int>,
                                      bootstrapServers: Option<seq<string>>, overrides: BrokerConfig): (c: BrokerConfig)
    ensures c.Keys == env.producerConfigurationDefaults(topic, sliceId, bootstrapServers).Keys + overrides.Keys
    ensures forall k :: k in overrides ==> c[k] == overrides[k]
    ensures forall k :: k in env.producerConfigurationDefaults(topic, sliceId, bootstrapServers) && k !in overrides ==>
              c[k] == env.producerConfigurationDefaults(topic, sliceId, bootstrapServers)[k]
  {
    env.producerConfigurationDefaults(topic, sliceId, bootstrapServers) + overrides
  }

  /** The statistics interval: the per-group setting when it is set,
      otherwise the global setting, otherwise 0. */
  function StatsCollectionFrequencyMs(getConfig: string -> Option<int>, groupId: string): (f: int)
    ensures getConfig("stats_collection_freq_ms_" + groupId).Some? ==>
              f == getConfig("stats_collection_freq_ms_" + groupId).value
    ensures getConfig("stats_collection_freq_ms_" + groupId).None? && getConfig("stats_collection_freq_ms").Some? ==>
              f == getConfig("stats_collection_freq_ms").value
    ensures getConfig("stats_collection_freq_ms_" + groupId).None? && getConfig("stats_collection_freq_ms").None? ==>
              f == 0
  {
    var fallback := match getConfig("stats_collection_freq_ms")
      case Some(v) => v
      case None => 0;
    match getConfig("stats_collection_freq_ms_" + groupId)
    case Some(v) => v
    case None => fallback
  }

  // ---------------------------------------------------------------------
  // Commit retry policy

  /** Kafka error codes; `OtherCode` stands for every code but the three named. */
  datatype KafkaErrorCode = RequestTimedOut | NotCoordinator | WaitCoord | OtherCode(code: int)

  /** The first constructor argument of an exception. */
  datatype ExceptionArg = KafkaErrorArg(errorCode: KafkaErrorCode) | OtherArg

  /** A failure of the commit call. */
  datatype CommitError = KafkaException(args: seq<ExceptionArg>) | OtherException(name: string)

  /** What evaluating a retry predicate does: answers, or raises a Python error. */
  datatype PredicateOutcome = Decided(retry: bool) | Raised(error: string)

  /** The default predicate: an error is retried exactly when it is a
      KafkaException whose error code is REQUEST_TIMED_OUT, NOT_COORDINATOR
      or _WAIT_COORD. Any other exception is not retried; a KafkaException
      without arguments, or whose first argument has no `code`, makes the
      predicate itself raise. */
  function DefaultCommitRetryPredicate(e: CommitError): (r: PredicateOutcome)
    ensures r == Decided(true) <==>
              && e.KafkaException? && |e.args| > 0 && e.args[0].KafkaErrorArg?
              && e.args[0].errorCode in {RequestTimedOut, NotCoordinator, WaitCoord}
    ensures e.OtherException? ==> r == Decided(false)
    ensures r.Raised? <==> e.KafkaException? && (|e.args| == 0 || e.args[0].OtherArg?)
  {
    if !e.KafkaException? then Decided(false)
    else if |e.args| == 0 then Raised("IndexError")
    else match e.args[0]
      case OtherArg => Raised("AttributeError")
      case KafkaErrorArg(code) =>
        Decided(code == RequestTimedOut || code == NotCoordinator || code == WaitCoord)
  }

  datatype RetryPolicy =
    | BasicRetryPolicy(maxAttempts: int, delay: int, shouldRetry: CommitError -> PredicateOutcome)
    | CustomRetryPolicy(name: string)

  /** The policy used when none is supplied: three attempts, a delay of 1,
      retrying on the default predicate. */
  function DefaultCommitRetryPolicy(): (p: RetryPolicy)
    ensures p.BasicRetryPolicy? && p.maxAttempts == 3 && p.delay == 1
    ensures forall e :: p.shouldRetry(e) == DefaultCommitRetryPredicate(e)
  {
    BasicRetryPolicy(3, 1, DefaultCommitRetryPredicate)
  }

  // ---------------------------------------------------------------------
  // What the builder produces (opaque records of the values bound)

  datatype Producer = Producer(config: BrokerConfig)

  datatype CommitLogConfig = CommitLogConfig(producer: Producer, topic: Topic, groupId: string)

  /** `functools.partial(process_message, processor, group, topic, validate)`. */
  datatype ProcessMessage = ProcessMessage(processor: Processor, consumerGroup: string,
                                           logicalTopic: LogicalTopic, validateSchema: bool)

  /** The arguments of `build_batch_writer`. */
  datatype BatchWriter = BatchWriter(
    tableWriter: TableWriter,
    metrics: Metrics,
    replacementsProducer: Option<Producer>,
    replacementsTopic: Option<Topic>,
    sliceId: Option<int>,
    commitLogConfig: Option<CommitLogConfig>)

  datatype StrategyFactory =
    | KafkaConsumerStrategyFactory(
        prefilter: PreFilter,
        processMessage: ProcessMessage,
        collector: BatchWriter,
        maxBatchSize: int,
        maxBatchTime: real,
        processes: Option<int>,
        inputBlockSize: Option<int>,
        outputBlockSize: Option<int>,
        initializeParallelTransform: Initializer,
        deadLetterQueuePolicyCreator: DeadLetterQueuePolicyCreator)
    | ProfilerWrapper(inner: StrategyFactory, profilePath: string)

  datatype KafkaConsumer = KafkaConsumer(configuration: BrokerConfig, commitRetryPolicy: RetryPolicy)

  datatype CommitPolicy = Immediate

  datatype StreamProcessor = StreamProcessor(consumer: KafkaConsumer, topic: Topic,
                                             strategyFactory: StrategyFactory, commitPolicy: CommitPolicy)

  // ---------------------------------------------------------------------
  // The builder

  /** Every field is set once, by the constructor. */
  class ConsumerBuilder {
    const storage: WritableStorage
    const bootstrapServers: Option<seq<string>>
    const consumerGroup: string
    const brokerConfig: BrokerConfig
    const producerBrokerConfig: BrokerConfig
    const rawTopic: Topic
    const replacementsTopic: Option<Topic>
    const commitLogTopic: Option<Topic>
    const statsCallback: Option<StatsCallback>
    const producer: Producer
    const metrics: Metrics
    const maxBatchSize: int
    const maxBatchTimeMs: int
    const groupId: string
    const autoOffsetReset: string
    const strictOffsetReset: Option<bool>
    const queuedMaxMessagesKbytes: int
    const queuedMinMessages: int
    const processes: Option<int>
    const inputBlockSize: Option<int>
    const outputBlockSize: Option<int>
    const profilePath: Option<string>
    const commitRetryPolicy: RetryPolicy
    const validateSchema: bool

    /** The fields hold what construction from these arguments resolves. */
    ghost predicate BuiltFrom(env: Collaborators, storageKey: StorageKey, kafkaParams: KafkaParameters,
                              processingParams: ProcessingParameters, maxBatchSize: int, maxBatchTimeMs: int,
                              metrics: Metrics, sliceId: Option<int>, statsCallback: Option<StatsCallback>,
                              commitRetryPolicy: Option<RetryPolicy>, validateSchema: bool, profilePath: Option<string>)
    {
      var loader := env.getWritableStorage(storageKey).tableWriter.streamLoader;
      var topic := loader.defaultTopicSpec.topic;
      && storage == env.getWritableStorage(storageKey)
      && bootstrapServers == kafkaParams.bootstrapServers
      && consumerGroup == kafkaParams.groupId
      && brokerConfig == env.defaultKafkaConfiguration(topic, sliceId, kafkaParams.bootstrapServers)
      && producerBrokerConfig ==
           BuildProducerConfiguration(env, topic, sliceId, kafkaParams.bootstrapServers, ProducerOverrides)
      && rawTopic == RawTopic(kafkaParams.rawTopic, loader.defaultTopicSpec, sliceId)
      && replacementsTopic == OptionalTopic(kafkaParams.replacementsTopic, loader.replacementTopicSpec, sliceId)
      && commitLogTopic == OptionalTopic(kafkaParams.commitLogTopic, loader.commitLogTopicSpec, sliceId)
      && this.statsCallback == statsCallback
      && producer == Producer(producerBrokerConfig)
      && this.metrics == metrics
      && this.maxBatchSize == maxBatchSize
      && this.maxBatchTimeMs == maxBatchTimeMs
      && groupId == kafkaParams.groupId
      && autoOffsetReset == kafkaParams.autoOffsetReset
      && strictOffsetReset == kafkaParams.strictOffsetReset
      && queuedMaxMessagesKbytes == kafkaParams.queuedMaxMessagesKbytes
      && queuedMinMessages == kafkaParams.queuedMinMessages
      && processes == processingParams.processes
      && inputBlockSize == processingParams.inputBlockSize
      && outputBlockSize == processingParams.outputBlockSize
      && this.profilePath == profilePath
      && this.commitRetryPolicy == (if commitRetryPolicy.Some? then commitRetryPolicy.value else DefaultCommitRetryPolicy())
      && this.validateSchema == validateSchema
    }

    /** Construction once the slice has been validated. */
    constructor (env: Collaborators, storageKey: StorageKey, kafkaParams: KafkaParameters,
                 processingParams: ProcessingParameters, maxBatchSize: int, maxBatchTimeMs: int,
                 metrics: Metrics, sliceId: Option<int>, statsCallback: Option<StatsCallback>,
                 commitRetryPolicy: Option<RetryPolicy>, validateSchema: bool, profilePath: Option<string>)
      requires env.validatePassedSlice(env.getWritableStorage(storageKey).storageSetKey, sliceId)
      ensures BuiltFrom(env, storageKey, kafkaParams, processingParams, maxBatchSize, maxBatchTimeMs,
                        metrics, sliceId, statsCallback, commitRetryPolicy, validateSchema, profilePath)
      ensures producerBrokerConfig["partitioner"] == CStr("consistent")
      ensures producerBrokerConfig["message.max.bytes"] == CInt(50000000)
      ensures kafkaParams.commitLogTopic.Some? ==> commitLogTopic == Some(Topic(kafkaParams.commitLogTopic.value))
      ensures kafkaParams.replacementsTopic.Some? ==>
                replacementsTopic == Some(Topic(kafkaParams.replacementsTopic.value))
    {
      var writable := env.getWritableStorage(storageKey);
      storage := writable;
      bootstrapServers := kafkaParams.bootstrapServers;
      consumerGroup := kafkaParams.groupId;
      var topic := writable.tableWriter.streamLoader.defaultTopicSpec.topic;

      brokerConfig := env.defaultKafkaConfiguration(topic, sliceId, kafkaParams.bootstrapServers);
      var producerConfig :=
        BuildProducerConfiguration(env, topic, sliceId, kafkaParams.bootstrapServers, ProducerOverrides);
      producerBrokerConfig := producerConfig;

      var streamLoader := writable.tableWriter.streamLoader;

      rawTopic := RawTopic(kafkaParams.rawTopic, streamLoader.defaultTopicSpec, sliceId);
      replacementsTopic := OptionalTopic(kafkaParams.replacementsTopic, streamLoader.replacementTopicSpec, sliceId);
      commitLogTopic := OptionalTopic(kafkaParams.commitLogTopic, streamLoader.commitLogTopicSpec, sliceId);

      this.statsCallback := statsCallback;
      producer := Producer(producerConfig);
      this.metrics := metrics;
      this.maxBatchSize := maxBatchSize;
      this.maxBatchTimeMs := maxBatchTimeMs;
      groupId := kafkaParams.groupId;
      autoOffsetReset := kafkaParams.autoOffsetReset;
      strictOffsetReset := kafkaParams.strictOffsetReset;
      queuedMaxMessagesKbytes := kafkaParams.queuedMaxMessagesKbytes;
      queuedMinMessages := kafkaParams.queuedMinMessages;
      processes := processingParams.processes;
      inputBlockSize := processingParams.inputBlockSize;
      outputBlockSize := processingParams.outputBlockSize;
      this.profilePath := profilePath;

      var policy := commitRetryPolicy;
      if policy.None? {
        policy := Some(DefaultCommitRetryPolicy());
      }
      this.commitRetryPolicy := policy.value;
      this.validateSchema := validateSchema;
    }

    /** `ConsumerBuilder(...)`: the slice is validated first; an invalid one
        fails with a configuration error and no builder is created. */
    static method Create(env: Collaborators, storageKey: StorageKey, kafkaParams: KafkaParameters,
                         processingParams: ProcessingParameters, maxBatchSize: int, maxBatchTimeMs: int,
                         metrics: Metrics, sliceId: Option<int>, statsCallback: Option<StatsCallback>,
                         commitRetryPolicy: Option<RetryPolicy>, validateSchema: bool, profilePath: Option<string>)
      returns (r: Result<ConsumerBuilder, ConfigurationError>)
      ensures r.Failure? <==> !env.validatePassedSlice(env.getWritableStorage(storageKey).storageSetKey, sliceId)
      ensures r.Failure? ==> r.error == InvalidSlice(env.getWritableStorage(storageKey).storageSetKey, sliceId)
      ensures r.Success? ==> fresh(r.value) && r.value.BuiltFrom(env, storageKey, kafkaParams, processingParams,
                               maxBatchSize, maxBatchTimeMs, metrics, sliceId, statsCallback, commitRetryPolicy,
                               validateSchema, profilePath)
    {
      var storage := env.getWritableStorage(storageKey);
      if !env.validatePassedSlice(storage.storageSetKey, sliceId) {
        return Failure(InvalidSlice(storage.storageSetKey, sliceId));
      }
      var builder := new ConsumerBuilder(env, storageKey, kafkaParams, processingParams, maxBatchSize,
                                         maxBatchTimeMs, metrics, sliceId, statsCallback, commitRetryPolicy,
                                         validateSchema, profilePath);
      r := Success(builder);
    }

    /** The arguments `__build_consumer` passes to `build_kafka_consumer_configuration`. */
    function ConsumerConfigRequestFor(sliceId: Option<int>): ConsumerConfigRequest
    {
      ConsumerConfigRequest(storage.tableWriter.streamLoader.defaultTopicSpec.topic, bootstrapServers, groupId,
                            sliceId, autoOffsetReset, strictOffsetReset, queuedMaxMessagesKbytes, queuedMinMessages)
    }

    /** `p` is the processor `__build_consumer` returns for `strategyFactory`:
        on the raw topic with immediate commits, its consumer using the
        commit retry policy and the library's consumer configuration, to
        which the statistics interval and callback are added exactly when the
        statistics setting is positive. */
    ghost predicate ConsumerFor(env: Collaborators, strategyFactory: StrategyFactory, sliceId: Option<int>,
                                p: StreamProcessor)
    {
      var base := env.consumerConfiguration(ConsumerConfigRequestFor(sliceId));
      var frequency := StatsCollectionFrequencyMs(env.getConfig, groupId);
      var configuration := p.consumer.configuration;
      && p.topic == rawTopic
      && p.strategyFactory == strategyFactory
      && p.commitPolicy == Immediate
      && p.consumer.commitRetryPolicy == commitRetryPolicy
      && (frequency > 0 ==>
            && configuration.Keys == base.Keys + {"statistics.interval.ms", "stats_cb"}
            && configuration["statistics.interval.ms"] == CInt(frequency)
            && configuration["stats_cb"] == CCallback(statsCallback)
            && forall k :: k in base && k != "statistics.interval.ms" && k != "stats_cb" ==>
                 configuration[k] == base[k])
      && (frequency <= 0 ==> configuration == base)
    }

    /** `__build_consumer`. */
    method BuildConsumer(env: Collaborators, strategyFactory: StrategyFactory, sliceId: Option<int>)
      returns (p: StreamProcessor)
      ensures ConsumerFor(env, strategyFactory, sliceId, p)
    {
      var configuration := env.consumerConfiguration(ConsumerConfigRequestFor(sliceId));
      var frequency := StatsCollectionFrequencyMs(env.getConfig, groupId);
      if frequency > 0 {
        configuration := configuration["statistics.interval.ms" := CInt(frequency)]["stats_cb" := CCallback(statsCallback)];
      }
      var consumer := KafkaConsumer(configuration, commitRetryPolicy);
      p := StreamProcessor(consumer, rawTopic, strategyFactory, Immediate);
    }

    /** `f` is the strategy factory `__build_streaming_strategy_factory`
        returns: wrapped in the profiler exactly when a profile path was
        given; its collector gets a commit-log config exactly when a
        commit-log topic resolved, and the producer for replacements exactly
        when a replacements topic resolved; the message transform, thresholds
        and parallelism are bound from the builder's fields. */
    ghost predicate StrategyFactoryFor(sliceId: Option<int>, f: StrategyFactory)
    {
      var loader := storage.tableWriter.streamLoader;
      var base := if f.ProfilerWrapper? then f.inner else f;
      && (f.ProfilerWrapper? <==> profilePath.Some?)
      && (profilePath.Some? ==> f.profilePath == profilePath.value)
      && base.KafkaConsumerStrategyFactory?
      && base.prefilter == loader.preFilter
      && base.processMessage ==
           ProcessMessage(loader.processor, consumerGroup, loader.defaultTopicSpec.topic, validateSchema)
      && base.collector.tableWriter == storage.tableWriter
      && base.collector.metrics == metrics
      && (base.collector.replacementsProducer.Some? <==> base.collector.replacementsTopic.Some?)
      && (base.collector.replacementsProducer.Some? ==> base.collector.replacementsProducer.value == producer)
      && base.collector.replacementsTopic == replacementsTopic
      && base.collector.sliceId == sliceId
      && (base.collector.commitLogConfig.Some? <==> commitLogTopic.Some?)
      && (commitLogTopic.Some? ==>
            base.collector.commitLogConfig.value == CommitLogConfig(producer, commitLogTopic.value, groupId))
      && base.maxBatchSize == maxBatchSize
      && base.maxBatchTime == maxBatchTimeMs as real / 1000.0
      && base.processes == processes
      && base.inputBlockSize == inputBlockSize
      && base.outputBlockSize == outputBlockSize
      && base.initializeParallelTransform == SetupSentry
      && base.deadLetterQueuePolicyCreator == loader.deadLetterQueuePolicyCreator
    }

    /** `__build_streaming_strategy_factory`. */
    method BuildStreamingStrategyFactory(sliceId: Option<int>) returns (f: StrategyFactory)
      ensures StrategyFactoryFor(sliceId, f)
    {
      var tableWriter := storage.tableWriter;
      var streamLoader := tableWriter.streamLoader;
      var logicalTopic := streamLoader.defaultTopicSpec.topic;
      var processor := streamLoader.processor;

      var commitLogConfig: Option<CommitLogConfig>;
      if commitLogTopic.Some? {
        commitLogConfig := Some(CommitLogConfig(producer, commitLogTopic.value, groupId));
      } else {
        commitLogConfig := None;
      }

      f := KafkaConsumerStrategyFactory(
        streamLoader.preFilter,
        ProcessMessage(processor, consumerGroup, logicalTopic, validateSchema),
        BatchWriter(
          tableWriter,
          metrics,
          if replacementsTopic.Some? then Some(producer) else None,
          replacementsTopic,
          sliceId,
          commitLogConfig),
        maxBatchSize,
        maxBatchTimeMs as real / 1000.0,
        processes,
        inputBlockSize,
        outputBlockSize,
        SetupSentry,
        streamLoader.deadLetterQueuePolicyCreator);

      if profilePath.Some? {
        f := ProfilerWrapper(f, profilePath.value);
      }
    }

    /** `build_base_consumer`: the strategy factory for the slice, run by a
        processor on the raw topic. */
    method BuildBaseConsumer(env: Collaborators, sliceId: Option<int>) returns (p: StreamProcessor)
      ensures StrategyFactoryFor(sliceId, p.strategyFactory)
      ensures ConsumerFor(env, p.strategyFactory, sliceId, p)
    {
      var strategyFactory := BuildStreamingStrategyFactory(sliceId);
      p := BuildConsumer(env, strategyFactory, sliceId);
    }
  }
}
