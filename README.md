# Change-logging session store and image writer options

Two small pieces of Apache Kafka, modelled in Dafny and verified.

**`ChangeLoggingSessionBytesStore`** (Kafka Streams) is a session store that wraps another `SessionStore<Bytes, byte[]>`, behaving as its test pins it down:
- `init(context, root)` is handed on to the wrapped store with the same context and root.
- `put` and `remove` are forwarded to the wrapped store. Each is then followed by exactly one `logChange` record on the processor context. The record holds:
  - the store's name;
  - the binary session key `SessionKeySchema.toBinary(key)`;
  - the value, or a tombstone (null) for a remove;
  - the current record context's timestamp;
  - the position the wrapped store reports after the change.
- The eight reads (`fetch`, `backwardFetch`, each for a single key or a range; `findSessions`, `backwardFindSessions`, each for a single key or a range) are forwarded once, with identical arguments. So are `flush` and `close`. None of them logs anything or changes the contents.

The wrapped store is modelled as a recording store, in the way the test's mock records calls. It holds:
- its contents, a map from windowed key to value;
- a position that the environment sets;
- the ordered list of every invocation made on it.

The processor context holds the record context and the change log, a sequence of records.

The decorator carries a ghost class invariant, `Valid`. It says that, since `init`:
- the changes forwarded to the wrapped store are exactly the recorded history;
- the wrapped store's contents are that history applied in order;
- the records this store logged (`logged`) match those changes one to one, in the same order.

`Valid` does not read the processor context's change log. In Kafka one context serves all stores of a task, so other stores may append to the same log between this store's calls. Each `Put` and `Remove` appends to the context's log exactly the record it adds to `logged`. No operation requires `Valid`: every operation keeps it when it held before the call.

From this invariant, `ChangelogRestoresStore` proves the point of change logging. Replay the records this store logged over the contents the store had at `init`: the result is its current contents, keyed by binary key. This holds whenever `toBinary` tells keys apart.

The logged timestamp is the one the current record context carries (the test stubs `context.recordContext()` to give 0). It is not taken from the session window's end, which merely happens to be 0 in the test as well.

**`ImageWriterOptions`** (Kafka metadata) is the set of options for writing a metadata image. Its mutable `Builder` offers:
- two constructors: the defaults, or values taken from an image;
- setters that each change one field and return the builder itself;
- `build`, which snapshots the builder into an immutable value.

The one real rule is in `setMetadataVersion`:
- the requested version is kept unclamped;
- the written version is `MINIMUM_KRAFT_VERSION` (3.0-IV1) for every version below `MINIMUM_BOOTSTRAP_VERSION` (3.3-IV0), because those versions lack FeatureLevelRecord;
- any other version is written as it is.

`handleLoss` hands the loss handler an `UnwritableMetadataException` that carries the requested version and the message. The default handler rethrows it.

Files:
- `session_keys.dfy`: raw keys, session windows and windowed keys.
- `processor_context.dfy`: the record context, change-log records and the processor context.
- `session_store.dfy`: the wrapped, recording session store.
- `change_logging.dfy`: the decorator and its change-log theory.
- `change_logging_test.dfy`: one scenario per test case. Each returns what the wrapped store and the change log recorded.
- `image_writer_options.dfy`: the options, the builder and the version clamp.
- `wrappers.dfy`: `Option` and `Result`.

## Model

| member | source | states |
|---|---|---|
| SessionStores.SingleKeySessions | streams/src/test/java/org/apache/kafka/streams/state/internals/ChangeLoggingSessionBytesStoreTest.java:131-135 | in the recording store's answers, the range `[k, k]` holds exactly the sessions stored under key `k`, so a single-key fetch and the range fetch from a key to itself agree |
| SessionKeys.LexAntisymmetric | streams/src/test/java/org/apache/kafka/streams/state/internals/ChangeLoggingSessionBytesStoreTest.java:131-135 | in the byte order `LexLessEq` the recording store uses, two keys that are each at most the other are equal, so a range from `bytesKey` to `bytesKey` holds one raw key |
| SessionStores.SessionStore.constructor | streams/src/test/java/org/apache/kafka/streams/state/internals/ChangeLoggingSessionBytesStoreTest.java:48-49 | a fresh wrapped store: no contents, the empty position, no invocations recorded |
| SessionStores.SessionStore.StubPosition | streams/src/test/java/org/apache/kafka/streams/state/internals/ChangeLoggingSessionBytesStoreTest.java:79 | afterwards the store reports the given position; nothing else changes |
| SessionStores.SessionStore.Init | streams/src/test/java/org/apache/kafka/streams/state/internals/ChangeLoggingSessionBytesStoreTest.java:68 | records one `init` with the context and root it received; contents unchanged |
| SessionStores.SessionStore.Put | streams/src/test/java/org/apache/kafka/streams/state/internals/ChangeLoggingSessionBytesStoreTest.java:84 | the key now maps to the value, other keys keep theirs; one `put` recorded |
| SessionStores.SessionStore.Remove | streams/src/test/java/org/apache/kafka/streams/state/internals/ChangeLoggingSessionBytesStoreTest.java:109 | the key is gone, whether or not it was present; one `remove` recorded |
| SessionStores.SessionStore.GetPosition | streams/src/test/java/org/apache/kafka/streams/state/internals/ChangeLoggingSessionBytesStoreTest.java:79 | returns the position the environment set; one `getPosition` recorded |
| SessionStores.SessionStore.Fetch | streams/src/test/java/org/apache/kafka/streams/state/internals/ChangeLoggingSessionBytesStoreTest.java:117 | answers the sessions under the key; one `fetch(key)` recorded; contents unchanged |
| SessionStores.SessionStore.BackwardFetch | streams/src/test/java/org/apache/kafka/streams/state/internals/ChangeLoggingSessionBytesStoreTest.java:125 | as `Fetch`, recording `backwardFetch(key)` |
| SessionStores.SessionStore.FetchRange | streams/src/test/java/org/apache/kafka/streams/state/internals/ChangeLoggingSessionBytesStoreTest.java:133 | answers the sessions whose key is in the range; one `fetch(from, to)` recorded |
| SessionStores.SessionStore.BackwardFetchRange | streams/src/test/java/org/apache/kafka/streams/state/internals/ChangeLoggingSessionBytesStoreTest.java:141 | as `FetchRange`, recording `backwardFetch(from, to)` |
| SessionStores.SessionStore.FindSessions | streams/src/test/java/org/apache/kafka/streams/state/internals/ChangeLoggingSessionBytesStoreTest.java:149 | answers the key's sessions ending no earlier than the earliest end and starting no later than the latest start; one `findSessions` recorded |
| SessionStores.SessionStore.BackwardFindSessions | streams/src/test/java/org/apache/kafka/streams/state/internals/ChangeLoggingSessionBytesStoreTest.java:157 | as `FindSessions`, recording `backwardFindSessions` |
| SessionStores.SessionStore.FindSessionRange | streams/src/test/java/org/apache/kafka/streams/state/internals/ChangeLoggingSessionBytesStoreTest.java:165 | as `FindSessions` over a key range; one `findSessions(from, to, …)` recorded |
| SessionStores.SessionStore.BackwardFindSessionRange | streams/src/test/java/org/apache/kafka/streams/state/internals/ChangeLoggingSessionBytesStoreTest.java:173 | as `FindSessionRange`, recording `backwardFindSessions(from, to, …)` |
| SessionStores.SessionStore.Flush | streams/src/test/java/org/apache/kafka/streams/state/internals/ChangeLoggingSessionBytesStoreTest.java:181 | one `flush` recorded; contents unchanged |
| SessionStores.SessionStore.Close | streams/src/test/java/org/apache/kafka/streams/state/internals/ChangeLoggingSessionBytesStoreTest.java:188 | one `close` recorded; contents unchanged |
| ProcessorContexts.ProcessorContext.constructor | streams/src/test/java/org/apache/kafka/streams/state/internals/ChangeLoggingSessionBytesStoreTest.java:50-51 | a context with the given record context and an empty change log |
| ProcessorContexts.ProcessorContext.LogChange | streams/src/test/java/org/apache/kafka/streams/state/internals/ChangeLoggingSessionBytesStoreTest.java:85 | appends exactly the record given (name, key, value, timestamp, position) and changes nothing else |
| ChangeLogging.ReplayDescribed | streams/src/test/java/org/apache/kafka/streams/state/internals/ChangeLoggingSessionBytesStoreTest.java:82-85 | replaying the record that describes one change (value for a put, tombstone for a remove) has that change's effect on the contents keyed by binary key, given an injective `toBinary` |
| ChangeLogging.RestoreFromChangelog | streams/src/test/java/org/apache/kafka/streams/state/internals/ChangeLoggingSessionBytesStoreTest.java:77-111 | records that match the changes one to one, in order, replay to the contents those changes produce |
| ChangeLogging.TracksChange | streams/src/test/java/org/apache/kafka/streams/state/internals/ChangeLoggingSessionBytesStoreTest.java:82-85 | forwarding calls that hold exactly one change and logging exactly one matching record keeps the trace, contents and log in step |
| ChangeLogging.TracksQuiet | streams/src/test/java/org/apache/kafka/streams/state/internals/ChangeLoggingSessionBytesStoreTest.java:113-189 | forwarding a call that is not a change, and logging nothing, keeps the trace, contents and log in step |
| ChangeLogging.ChangeLoggingSessionBytesStore.constructor | streams/src/test/java/org/apache/kafka/streams/state/internals/ChangeLoggingSessionBytesStoreTest.java:62 | wraps the given store; no context until `init` |
| ChangeLogging.ChangeLoggingSessionBytesStore.Init | streams/src/test/java/org/apache/kafka/streams/state/internals/ChangeLoggingSessionBytesStoreTest.java:61-69 | keeps the context and forwards `init` once with the same context and root; the invariant starts with an empty history |
| ChangeLogging.ChangeLoggingSessionBytesStore.Put | streams/src/test/java/org/apache/kafka/streams/state/internals/ChangeLoggingSessionBytesStoreTest.java:77-98 | after `init`: the wrapped store receives exactly `put(k, v)` then `getPosition()`, and its contents gain `k ↦ v`; the context's log gains exactly one record `(wrapped store's name, toBinary(k), v, record-context timestamp, reported position)`, the same record this store adds to `logged`; the invariant is kept when it held |
| ChangeLogging.ChangeLoggingSessionBytesStore.Remove | streams/src/test/java/org/apache/kafka/streams/state/internals/ChangeLoggingSessionBytesStoreTest.java:101-111 | after `init`: the wrapped store receives exactly `remove(k)` then `getPosition()`, and `k` is gone; the context's log gains exactly one tombstone record under the wrapped store's name, the same record this store adds to `logged`; the invariant is kept when it held |
| ChangeLogging.ChangeLoggingSessionBytesStore.Fetch | streams/src/test/java/org/apache/kafka/streams/state/internals/ChangeLoggingSessionBytesStoreTest.java:115-119 | at any time: returns the wrapped store's answer after exactly one `fetch(key)`; contents, history, `logged` and the context's log unchanged; the invariant is kept when it held |
| ChangeLogging.ChangeLoggingSessionBytesStore.BackwardFetch | streams/src/test/java/org/apache/kafka/streams/state/internals/ChangeLoggingSessionBytesStoreTest.java:123-127 | the same for exactly one `backwardFetch(key)` |
| ChangeLogging.ChangeLoggingSessionBytesStore.FetchRange | streams/src/test/java/org/apache/kafka/streams/state/internals/ChangeLoggingSessionBytesStoreTest.java:131-135 | the same for exactly one `fetch(from, to)` |
| ChangeLogging.ChangeLoggingSessionBytesStore.BackwardFetchRange | streams/src/test/java/org/apache/kafka/streams/state/internals/ChangeLoggingSessionBytesStoreTest.java:139-143 | the same for exactly one `backwardFetch(from, to)` |
| ChangeLogging.ChangeLoggingSessionBytesStore.FindSessions | streams/src/test/java/org/apache/kafka/streams/state/internals/ChangeLoggingSessionBytesStoreTest.java:147-151 | the same for exactly one `findSessions(key, earliestEnd, latestStart)` |
| ChangeLogging.ChangeLoggingSessionBytesStore.BackwardFindSessions | streams/src/test/java/org/apache/kafka/streams/state/internals/ChangeLoggingSessionBytesStoreTest.java:155-159 | the same for exactly one `backwardFindSessions(key, earliestEnd, latestStart)` |
| ChangeLogging.ChangeLoggingSessionBytesStore.FindSessionRange | streams/src/test/java/org/apache/kafka/streams/state/internals/ChangeLoggingSessionBytesStoreTest.java:163-167 | the same for exactly one `findSessions(from, to, earliestEnd, latestStart)` |
| ChangeLogging.ChangeLoggingSessionBytesStore.BackwardFindSessionRange | streams/src/test/java/org/apache/kafka/streams/state/internals/ChangeLoggingSessionBytesStoreTest.java:171-175 | the same for exactly one `backwardFindSessions(from, to, earliestEnd, latestStart)` |
| ChangeLogging.ChangeLoggingSessionBytesStore.Flush | streams/src/test/java/org/apache/kafka/streams/state/internals/ChangeLoggingSessionBytesStoreTest.java:177-182 | exactly one `flush()` reaches the wrapped store; nothing logged, contents unchanged |
| ChangeLogging.ChangeLoggingSessionBytesStore.Close | streams/src/test/java/org/apache/kafka/streams/state/internals/ChangeLoggingSessionBytesStoreTest.java:184-189 | exactly one `close()` reaches the wrapped store; nothing logged, contents unchanged |
| ChangeLogging.ChangeLoggingSessionBytesStore.ChangelogRestoresStore | streams/src/test/java/org/apache/kafka/streams/state/internals/ChangeLoggingSessionBytesStoreTest.java:77-111 | replaying the records this store logged since `init` over the contents at `init` gives the wrapped store's current contents, keyed by binary key, when `toBinary` is injective |
| ChangeLoggingSessionBytesStoreTest.SetUp | streams/src/test/java/org/apache/kafka/streams/state/internals/ChangeLoggingSessionBytesStoreTest.java:61-64 | a fresh decorator over a fresh store, initialised with a fresh context and itself as root; the wrapped store is empty and has seen only that `init`; the decorator's history and logged records are empty, so `ChangelogRestoresStore` applies from the empty map |
| ChangeLoggingSessionBytesStoreTest.ShouldDelegateInit | streams/src/test/java/org/apache/kafka/streams/state/internals/ChangeLoggingSessionBytesStoreTest.java:66-74 | the decorator holds the context, and the wrapped store's whole trace is `init(context, store)`: the same context and the decorator itself as root; nothing logged |
| ChangeLoggingSessionBytesStoreTest.ShouldLogPuts | streams/src/test/java/org/apache/kafka/streams/state/internals/ChangeLoggingSessionBytesStoreTest.java:76-86 | the whole trace is `init(context, store)`, `put(key1, value1)`, `getPosition()`; the log is one record with the store's own name, its codec's `toBinary(key1)`, `value1`, timestamp 0 and the empty position |
| ChangeLoggingSessionBytesStoreTest.ShouldLogPutsWithPosition | streams/src/test/java/org/apache/kafka/streams/state/internals/ChangeLoggingSessionBytesStoreTest.java:88-98 | the same, with the non-empty position `{"": {0: 1}}` logged unaltered |
| ChangeLoggingSessionBytesStoreTest.ShouldLogRemoves | streams/src/test/java/org/apache/kafka/streams/state/internals/ChangeLoggingSessionBytesStoreTest.java:100-111 | two removes of an absent key, the store staying empty: the whole trace is `init(context, store)` then two `remove(key1)` / `getPosition()` pairs; the log is two tombstone records under the store's own name and codec, with timestamp 0 |
| ChangeLoggingSessionBytesStoreTest.ShouldDelegateToUnderlyingStoreWhenFetching | streams/src/test/java/org/apache/kafka/streams/state/internals/ChangeLoggingSessionBytesStoreTest.java:113-119 | the whole trace is `init(context, store)` then exactly `fetch(bytesKey)`; nothing logged |
| ChangeLoggingSessionBytesStoreTest.ShouldDelegateToUnderlyingStoreWhenBackwardFetching | streams/src/test/java/org/apache/kafka/streams/state/internals/ChangeLoggingSessionBytesStoreTest.java:121-127 | the whole trace is `init(context, store)` then exactly `backwardFetch(bytesKey)`; nothing logged |
| ChangeLoggingSessionBytesStoreTest.ShouldDelegateToUnderlyingStoreWhenFetchingRange | streams/src/test/java/org/apache/kafka/streams/state/internals/ChangeLoggingSessionBytesStoreTest.java:129-135 | the whole trace is `init(context, store)` then exactly `fetch(bytesKey, bytesKey)`; nothing logged |
| ChangeLoggingSessionBytesStoreTest.ShouldDelegateToUnderlyingStoreWhenBackwardFetchingRange | streams/src/test/java/org/apache/kafka/streams/state/internals/ChangeLoggingSessionBytesStoreTest.java:137-143 | the whole trace is `init(context, store)` then exactly `backwardFetch(bytesKey, bytesKey)`; nothing logged |
| ChangeLoggingSessionBytesStoreTest.ShouldDelegateToUnderlyingStoreWhenFindingSessions | streams/src/test/java/org/apache/kafka/streams/state/internals/ChangeLoggingSessionBytesStoreTest.java:145-151 | the whole trace is `init(context, store)` then exactly `findSessions(bytesKey, 0, 1)`; nothing logged |
| ChangeLoggingSessionBytesStoreTest.ShouldDelegateToUnderlyingStoreWhenBackwardFindingSessions | streams/src/test/java/org/apache/kafka/streams/state/internals/ChangeLoggingSessionBytesStoreTest.java:153-159 | the whole trace is `init(context, store)` then exactly `backwardFindSessions(bytesKey, 0, 1)`; nothing logged |
| ChangeLoggingSessionBytesStoreTest.ShouldDelegateToUnderlyingStoreWhenFindingSessionRange | streams/src/test/java/org/apache/kafka/streams/state/internals/ChangeLoggingSessionBytesStoreTest.java:161-167 | the whole trace is `init(context, store)` then exactly `findSessions(bytesKey, bytesKey, 0, 1)`; nothing logged |
| ChangeLoggingSessionBytesStoreTest.ShouldDelegateToUnderlyingStoreWhenBackwardFindingSessionRange | streams/src/test/java/org/apache/kafka/streams/state/internals/ChangeLoggingSessionBytesStoreTest.java:169-175 | the whole trace is `init(context, store)` then exactly `backwardFindSessions(bytesKey, bytesKey, 0, 1)`; nothing logged |
| ChangeLoggingSessionBytesStoreTest.ShouldFlushUnderlyingStore | streams/src/test/java/org/apache/kafka/streams/state/internals/ChangeLoggingSessionBytesStoreTest.java:177-182 | the whole trace is `init(context, store)` then exactly `flush()`; nothing logged |
| ChangeLoggingSessionBytesStoreTest.ShouldCloseUnderlyingStore | streams/src/test/java/org/apache/kafka/streams/state/internals/ChangeLoggingSessionBytesStoreTest.java:184-189 | the whole trace is `init(context, store)` then exactly `close()`; nothing logged |
| ImageWriter.EffectiveMetadataVersion | metadata/src/main/java/org/apache/kafka/image/writer/ImageWriterOptions.java:49-55 | a version below MINIMUM_BOOTSTRAP_VERSION is written as MINIMUM_KRAFT_VERSION; the written version is always MINIMUM_KRAFT_VERSION or at least MINIMUM_BOOTSTRAP_VERSION; it equals the requested one exactly when that is MINIMUM_KRAFT_VERSION or at least MINIMUM_BOOTSTRAP_VERSION |
| ImageWriter.EffectiveMetadataVersionIdempotent | metadata/src/main/java/org/apache/kafka/image/writer/ImageWriterOptions.java:49-55 | clamping a written version again leaves it as it is |
| ImageWriter.EffectiveMetadataVersionMonotone | metadata/src/main/java/org/apache/kafka/image/writer/ImageWriterOptions.java:49-55 | asking for a later version never gives an earlier written version |
| ImageWriter.ImageWriterOptions.HandleLoss | metadata/src/main/java/org/apache/kafka/image/writer/ImageWriterOptions.java:110-112 | the handler receives an exception holding the requested version and the message; it fails exactly when the handler is the rethrowing one, otherwise the exception is appended to the collected list |
| ImageWriter.DefaultHandlerAlwaysFails | metadata/src/main/java/org/apache/kafka/image/writer/ImageWriterOptions.java:34-36 | with the default handler every loss fails, with the exception naming the requested version and the message |
| ImageWriter.Builder.constructor | metadata/src/main/java/org/apache/kafka/image/writer/ImageWriterOptions.java:31-40 | the default builder: the latest production version, no requested version, ELR off, the rethrowing handler |
| ImageWriter.Builder.FromImage | metadata/src/main/java/org/apache/kafka/image/writer/ImageWriterOptions.java:42-45 | the image's version and ELR flag, no requested version, the rethrowing handler |
| ImageWriter.Builder.SetMetadataVersion | metadata/src/main/java/org/apache/kafka/image/writer/ImageWriterOptions.java:47-57 | records `v` unclamped as requested, sets the written version to its clamp (so MINIMUM_KRAFT_VERSION or at least MINIMUM_BOOTSTRAP_VERSION), changes no other field and returns the same builder |
| ImageWriter.Builder.SetEligibleLeaderReplicasEnabled | metadata/src/main/java/org/apache/kafka/image/writer/ImageWriterOptions.java:59-62 | sets the ELR flag only and returns the same builder |
| ImageWriter.Builder.SetLossHandler | metadata/src/main/java/org/apache/kafka/image/writer/ImageWriterOptions.java:76-79 | sets the loss handler only and returns the same builder |
| ImageWriter.Builder.Build | metadata/src/main/java/org/apache/kafka/image/writer/ImageWriterOptions.java:81-101 | the options carry the written version, requested version, loss handler and ELR flag unchanged |
| ImageWriter.DefaultOptions | metadata/src/main/java/org/apache/kafka/image/writer/ImageWriterOptions.java:31-40 | options built from a default builder are (latest production, rethrow, nothing requested, ELR off) |
| ImageWriter.OptionsForVersion | metadata/src/main/java/org/apache/kafka/image/writer/ImageWriterOptions.java:42-112 | options from an image with `v` set write the clamped `v`, request `v`, keep the image's ELR flag and the rethrowing handler; their own `handleLoss` fails a loss with an exception naming `v` |

## Left out

- `SessionKeySchema.toBinary` is not part of this model. It is a parameter of the decorator with no byte layout, order or invertibility assumed. Injectivity is a hypothesis of the restore lemmas only.
- `Position` is an opaque value: a map from topic to partition offsets that the wrapped store reports. Merging and other position internals are not modelled.
- `ProcessorContextImpl`, `ProcessorRecordContext` and `RecordHeaders` are reduced to the record context's timestamp, offset, partition and topic and to the change-log sink. Headers are not modelled. Timestamps, offsets and session-query times are 64-bit, partitions 32-bit, as in Java.
- The wrapped store is a recording store, the way the test's mock records calls. Its query answers are a plain filter of its contents. Mockito's stubbing strictness and unverified-call checks are not modelled.
- ChangeLogging.ChangeLoggingSessionBytesStore.Fetch: the answer is a map, not a `KeyValueIterator`. So iteration order is not modelled, and the backward variants return the same set as the forward ones. The same holds for the other seven reads.
- Iterator resource handling (try-with-resources closing) is not modelled.
- ChangeLogging.ChangeLoggingSessionBytesStore.Put: a null aggregate is not modelled, since values are byte sequences.
- ChangeLogging.ChangeLoggingSessionBytesStore.Put: the wrapped store's `put` and `getPosition` and the context's `logChange` never fail in the model. So two Java behaviours are not captured: when the wrapped store's `put` throws, nothing is logged and the exception reaches the caller; when `logChange` throws, the write to the wrapped store stays applied while the change log misses it. The same holds for `Remove`.
- Behaviour after `close` is not modelled (a closed store answering further calls).
- ChangeLogging.ChangeLoggingSessionBytesStore.Put: requires `init`. Before `init` the wrapped store would first receive the put, and the call would then fail with a NullPointerException on the missing context. That error path is not modelled. The same holds for `Remove`. The reads, `flush` and `close` may be called before `init` and are forwarded the same way.
- `name()` is a delegating accessor: the decorator's name is the wrapped store's, and the model uses `inner.name` directly. Put and Remove state that their records carry it. The wrapped store's `name()` calls are not recorded in its trace.
- SessionKeys.SessionWindow: its bounds are 64-bit like Java's `long`, but `0 <= start <= end`, which the window's constructor checks, is not enforced. `Injective(toBinary)` therefore also ranges over windows no Java key has, so a codec that collides only on such windows does not meet it. A codec that writes the key bytes followed by the two 64-bit bounds can meet it.
- The query semantics of the wrapped store (`Sessions`, `LexLessEq`) are not defined by the modelled files, which use a mock. They are the recording store's answers: a plain filter in the byte order of `Bytes.compareTo`.
- `MetadataVersion` is an integer rank in release order. MINIMUM_KRAFT_VERSION is 1 and MINIMUM_BOOTSTRAP_VERSION is 4, their feature levels. The other enum details are not modelled.
- `MetadataVersion.latestProduction()` is not part of this model. It is a parameter of the default builder.
- `MetadataImage` is reduced to the version and ELR flag of its features.
- ImageWriter.ImageWriterOptions.HandleLoss: an arbitrary `Consumer` handler is reduced to two: the default one that rethrows, and one that collects each exception into a list.
- The builder's accessors (`metadataVersion()`, `requestedMetadataVersion()`, `isEligibleLeaderReplicasEnabled()`) are the builder's fields themselves.
- The options' accessors (`metadataVersion()`, `isEligibleLeaderReplicasEnabled()`) are the datatype's destructors. The datatype also exposes `requestedMetadataVersion` and `lossHandler` as destructors, though `ImageWriterOptions` has no accessor for them; they are read only by `HandleLoss`.
