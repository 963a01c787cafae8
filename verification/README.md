# Snuba consumer builder and ClickHouse writer, modelled in Dafny

This project models two pieces of Snuba's ingestion path.

- **Consumer configuration resolution** (`snuba/consumers/consumer_builder.py`, module `Consumers`).
  `ConsumerBuilder` merges operator parameters (`KafkaParameters`, `ProcessingParameters`) with the defaults
  declared by the storage's stream loader:
  - it validates the slice, builds the broker configurations, and resolves the raw, replacements and commit-log topics;
  - it picks the commit retry policy;
  - it later assembles the processing strategy factory and the stream processor.

  The builder is a Dafny class whose constructor sets its fields in the order the source does.
  No method reassigns a field after `__init__`, so the fields are `const` fields set by the constructor.
  `ConsumerBuilder.Create` validates the slice first and returns a configuration error instead of a builder when the slice is invalid.
  The collaborators it calls are the function-valued fields of a `Collaborators` value passed in:
  - `get_writable_storage` and `validate_passed_slice`;
  - the Kafka configuration builders;
  - the dynamic `get_config` store.

  A topic spec is a logical name plus a function from slice id to physical name.
  Kafka client objects (producer, consumer, stream processor, strategy factories) are plain records of the values bound into them.
- **Row projection and the INSERT statement** (`snuba/writer.py`, module `Writer`).
  `RowFromProcessedEvent` converts the event's `timestamp` and `received` in place and then projects the event dictionary (a class `Event`) onto the column list.
  `WriteRows` builds the statement `INSERT INTO <table> (<c1>, <c2>, ...) VALUES` and records the `execute` call it makes on a connection.
  `SnubaWriter.Write` forwards its table and columns, with the target described below.

`__init__` never checks the group id or the numeric parameters (snuba/consumers/consumer_builder.py:63-171), and neither does the model.
The model has a single build-time error, the slice validation (`ConsumerBuilder.Create`).
The code has others: `get_writable_storage` (line 77) and `Producer(...)` (line 142) can also raise.
Their failures are not modelled (see "## Left out").

Two behaviours are modelled as written.
- The query text keeps the newline and eight spaces that precede `INSERT` in the triple-quoted literal of `write_rows`.
- `SnubaWriter.write` hands `write_rows` the method `get_connection` itself, not a connection it picked.
  `write_rows` then looks up `execute` on that method object, which fails with AttributeError.
  `SnubaWriter.Write` models this, and `SnubaWriter.WriteThroughConnection` models the evidently intended call (see "## Findings").

## Model

| member | source | states |
|---|---|---|
| `Consumers.RawTopic` | snuba/consumers/consumer_builder.py:106-111 | the raw topic is the override when given, else the default topic spec's physical name under the slice; it is never absent |
| `Consumers.OptionalTopic` | snuba/consumers/consumer_builder.py:113-136 | replacements / commit-log topic: the override wins even when a spec is declared; else the spec's physical name under the slice; absent exactly when neither exists |
| `Consumers.BuildProducerConfiguration` | snuba/consumers/consumer_builder.py:94-102 | the producer configuration holds every override value, keeps the library default for every other key, and has no other keys |
| `Consumers.StatsCollectionFrequencyMs` | snuba/consumers/consumer_builder.py:198-201 | the per-group statistics setting wins; otherwise the global setting; otherwise 0 |
| `Consumers.DefaultCommitRetryPredicate` | snuba/consumers/consumer_builder.py:161-167 | retries exactly a KafkaException whose code is REQUEST_TIMED_OUT, NOT_COORDINATOR or _WAIT_COORD; any other exception is not retried; a KafkaException without a code-bearing first argument makes the predicate raise |
| `Consumers.DefaultCommitRetryPolicy` | snuba/consumers/consumer_builder.py:157-168 | the default policy is a basic policy with 3 attempts, delay 1 and the default predicate |
| `Consumers.ConsumerBuilder.constructor` | snuba/consumers/consumer_builder.py:77-171 | every field is as resolved from the arguments (`BuiltFrom`): topics by the precedence rules, producer configuration with partitioner "consistent" and message.max.bytes 50000000, a supplied retry policy stored unchanged, otherwise the default |
| `Consumers.ConsumerBuilder.Create` | snuba/consumers/consumer_builder.py:77-88 | construction fails with a configuration error exactly when the slice is invalid for the storage set; no builder exists then; otherwise a fresh builder built from the arguments |
| `Consumers.ConsumerBuilder.BuildConsumer` | snuba/consumers/consumer_builder.py:173-216 | the processor reads the raw topic with IMMEDIATE commits and the stored retry policy; the consumer configuration gains `statistics.interval.ms` and `stats_cb` exactly when the statistics setting is positive and is otherwise the library's configuration unchanged |
| `Consumers.ConsumerBuilder.BuildStreamingStrategyFactory` | snuba/consumers/consumer_builder.py:218-272 | a commit-log config (producer, topic, group) exists exactly when a commit-log topic resolved; the replacements producer and topic are both present or both absent; message transform, thresholds (ms / 1000) and parallelism are bound from the fields; the profiler wraps the factory exactly when a profile path was given |
| `Consumers.ConsumerBuilder.BuildBaseConsumer` | snuba/consumers/consumer_builder.py:274-282 | the processor runs the strategy factory built for the slice and satisfies both contracts above |
| `Writer.ProjectRow` | snuba/writer.py:12-22 | one entry per column, in order: the event value when present and not None, else `[]` for a dotted column, else None |
| `Writer.RowFromProcessedEvent` | snuba/writer.py:7-22 | only `timestamp` and `received` are overwritten with their converted values, before projection, so the row holds the converted values; a missing `timestamp` fails with nothing changed; a missing `received` fails after `timestamp` was converted |
| `Writer.SplitJoinColumns` | snuba/writer.py:28 | splitting the ", "-joined column list on ", " gives back the columns when none contains a comma |
| `Writer.InsertQuery` | snuba/writer.py:26-29 | the statement is the lead text (a newline and eight spaces, then "INSERT INTO "), the table verbatim, " (", exactly the ", "-joined columns, and ") VALUES" |
| `Writer.InsertQueryColumns` | snuba/writer.py:26-29 | the column list read back from the statement is exactly the given columns, in order |
| `Writer.WriteRows` | snuba/writer.py:25-30 | fails with AttributeError exactly when the target is a method object rather than a connection; otherwise one `execute` call on that connection with the INSERT statement and the rows passed through unchanged |
| `Writer.SnubaWriter.constructor` | snuba/writer.py:34-37 | the writer stores its connections, columns and table |
| `Writer.SnubaWriter.GetConnection` | snuba/writer.py:39-40 | the chosen connection is one of the pool's; an empty pool fails with IndexError |
| `Writer.SnubaWriter.Write` | snuba/writer.py:42-43 | as written: forwards the `get_connection` method itself as the target, so every call fails with AttributeError and nothing is sent |
| `Writer.SnubaWriter.WriteThroughConnection` | snuba/writer.py:42-43 | as intended (`self.get_connection()`): the INSERT statement for the stored table and columns and the given rows go to a connection of the pool; an empty pool fails with IndexError |

## Left out

- Logging of the librdkafka log level (consumer_builder.py:93) is left out: it is a side effect with no behaviour to verify.
- The Kafka, arroyo and Snuba consumer objects the builder creates are records of the values bound into them; their behaviour is not modelled.
  - From confluent_kafka and arroyo: `Producer`, `KafkaConsumer`, `StreamProcessor` and `ProcessingStrategyProfilerWrapperFactory`.
  - From Snuba's own consumer package: `KafkaConsumerStrategyFactory`, `build_batch_writer` (the record `BatchWriter` of its arguments), `process_message` and `setup_sentry`.
- Failures of `get_writable_storage` (consumer_builder.py:77) and of `Producer(...)` (consumer_builder.py:142) are not modelled: both are foreign calls, modelled as total.
- Consumers.BuildProducerConfiguration: the library's defaults are an abstract function. The way override parameters merge is assumed to be "overrides replace keys"; the library's merge code is not part of this model.
- The internals of `get_default_kafka_configuration`, `build_kafka_consumer_configuration`, `get_writable_storage`, `validate_passed_slice` and `get_physical_topic_name` are not modelled. Each is an abstract total function, so their own exceptions are not modelled either.
- Consumers.StatsCollectionFrequencyMs: the dynamic store is an injected lookup returning integers only. Non-integer settings and Python truthiness of other types are not modelled.
- The retry loop of `BasicRetryPolicy` (counting attempts, sleeping between them) belongs to arroyo and is left out; only the policy's parameters and predicate are modelled.
- Kafka error codes are an enumeration of the three named codes plus `OtherCode`; their numeric values are not modelled.
- `max_batch_time_ms / 1000.0` is a Dafny `real` division; floating-point rounding is not modelled.
- `if self.commit_log_topic:` is modelled as a presence test, because a `Topic` object is always truthy.
- Writer.RowFromProcessedEvent: `datetime.fromtimestamp` is an uninterpreted function, so its TypeError on a non-numeric value is not modelled. The default `columns=settings.WRITER_COLUMNS` is not modelled; callers pass the columns.
- Writer.WriteRows: `connection.execute` on a real connection is database I/O. The model returns the call it would make, not its outcome.
- Writer.SnubaWriter.GetConnection: the random draw of `random.choice` is the parameter `draw`.
- `%`-formatting performs no escaping of the table or column names, and the model claims none.

## Findings

| source | as written | input that shows it | evidently intended | confidence | as-written member | corrected member |
|---|---|---|---|---|---|---|
| snuba/writer.py:42-43 | `write_rows(self.get_connection, ...)` passes the bound method, and `write_rows` then evaluates `connection.execute` on it (writer.py:26) | any call `SnubaWriter(conns, cols, table).write(rows)`, even with a non-empty pool: a method object has no attribute `execute`, so AttributeError is raised and nothing is written | `write_rows(self.get_connection(), ...)`: send the statement to a connection drawn from the pool | high (not executed) | `Writer.SnubaWriter.Write` | `Writer.SnubaWriter.WriteThroughConnection` |
