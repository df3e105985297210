/**
 * The interactions `ChangeLoggingSessionBytesStoreTest` checks, one scenario per
 * test case. Each scenario builds a fresh recording store and context, runs the
 * case against the decorator, and returns what the wrapped store and the change
 * log recorded.
 */
module ChangeLoggingSessionBytesStoreTest {
  import opened Wrappers
  import opened SessionKeys
  import opened ProcessorContexts
  import opened SessionStores
  import opened ChangeLogging

  const VALUE1: Bytes := [0]
  const BYTES_KEY: Bytes := VALUE1
  const KEY1: Windowed := Windowed(BYTES_KEY, SessionWindow(0, 0))
  /** The non-empty position `{"": {0: 1}}`. */
  const POSITION: Position := Position(map["" := map[0 := 1]])
  /** A record context with timestamp, offset and partition 0 on topic "topic". */
  const RECORD_CONTEXT: RecordContext := RecordContext(0, 0, 0, "topic")

  /** A decorator over a fresh, empty store, initialised with a fresh context and itself as root. */
  method SetUp(name: string, toBinary: Windowed -> Bytes)
    returns (inner: SessionStore, context: ProcessorContext, store: ChangeLoggingSessionBytesStore)
    ensures fresh(inner) && fresh(context) && fresh(store)
    ensures store.inner == inner && store.context == context && store.toBinary == toBinary && store.Valid()
    ensures inner.name == name
    ensures inner.invocations == [StoreCall.Init(context, store)]
    ensures context.changelog == [] && context.recordContext == RECORD_CONTEXT
    ensures inner.entries == map[] && store.history == [] && store.logged == []
  {
    inner := new SessionStore(name);
    context := new ProcessorContext(RECORD_CONTEXT);
    store := new ChangeLoggingSessionBytesStore(inner, toBinary);
    store.Init(context, store);
  }

  /** `init` reaches the wrapped store once, with the same context and the decorator as root. */
  method ShouldDelegateInit(name: string, toBinary: Windowed -> Bytes)
    returns (context: ProcessorContext, store: ChangeLoggingSessionBytesStore, invocations: seq<StoreCall>, changelog: seq<LogRecord>)
    ensures store.context == context && invocations == store.inner.invocations && changelog == context.changelog
    ensures invocations == [StoreCall.Init(context, store)]
    ensures changelog == []
  {
    var inner;
    inner, context, store := SetUp(name, toBinary);
    invocations := inner.invocations;
    changelog := context.changelog;
  }

  /** One forwarded put, then one record with the empty position the store reports. */
  method ShouldLogPuts(name: string, toBinary: Windowed -> Bytes)
    returns (context: ProcessorContext, store: ChangeLoggingSessionBytesStore, invocations: seq<StoreCall>, changelog: seq<LogRecord>)
    ensures store.context == context && invocations == store.inner.invocations && changelog == context.changelog
    ensures store.inner.name == name && store.toBinary == toBinary
    ensures invocations == [StoreCall.Init(context, store), StoreCall.Put(KEY1, VALUE1), StoreCall.GetPosition]
    ensures changelog == [LogRecord(name, toBinary(KEY1), Some(VALUE1), 0, EMPTY_POSITION)]
  {
    var inner;
    inner, context, store := SetUp(name, toBinary);
    inner.StubPosition(EMPTY_POSITION);
    store.Put(KEY1, VALUE1);
    invocations := inner.invocations;
    changelog := context.changelog;
  }

  /** The logged position is the non-empty one the store reports, unaltered. */
  method ShouldLogPutsWithPosition(name: string, toBinary: Windowed -> Bytes)
    returns (context: ProcessorContext, store: ChangeLoggingSessionBytesStore, invocations: seq<StoreCall>, changelog: seq<LogRecord>)
    ensures store.context == context && invocations == store.inner.invocations && changelog == context.changelog
    ensures store.inner.name == name && store.toBinary == toBinary
    ensures invocations == [StoreCall.Init(context, store), StoreCall.Put(KEY1, VALUE1), StoreCall.GetPosition]
    ensures changelog == [LogRecord(name, toBinary(KEY1), Some(VALUE1), 0, POSITION)]
  {
    var inner;
    inner, context, store := SetUp(name, toBinary);
    inner.StubPosition(POSITION);
    store.Put(KEY1, VALUE1);
    invocations := inner.invocations;
    changelog := context.changelog;
  }

  /** Two removes of an absent key: two forwarded removes and two tombstone records. */
  method ShouldLogRemoves(name: string, toBinary: Windowed -> Bytes)
    returns (context: ProcessorContext, store: ChangeLoggingSessionBytesStore, invocations: seq<StoreCall>, changelog: seq<LogRecord>)
    ensures store.context == context && invocations == store.inner.invocations && changelog == context.changelog
    ensures store.inner.name == name && store.toBinary == toBinary
    ensures store.inner.entries == map[]
    ensures invocations == [StoreCall.Init(context, store), StoreCall.Remove(KEY1), StoreCall.GetPosition, StoreCall.Remove(KEY1), StoreCall.GetPosition]
    ensures changelog == [LogRecord(name, toBinary(KEY1), None, 0, EMPTY_POSITION), LogRecord(name, toBinary(KEY1), None, 0, EMPTY_POSITION)]
  {
    var inner;
    inner, context, store := SetUp(name, toBinary);
    inner.StubPosition(EMPTY_POSITION);
    store.Remove(KEY1);
    store.Remove(KEY1);
    invocations := inner.invocations;
    changelog := context.changelog;
  }

  method ShouldDelegateToUnderlyingStoreWhenFetching(name: string, toBinary: Windowed -> Bytes)
    returns (context: ProcessorContext, store: ChangeLoggingSessionBytesStore, invocations: seq<StoreCall>, changelog: seq<LogRecord>)
    ensures store.context == context && invocations == store.inner.invocations && changelog == context.changelog
    ensures invocations == [StoreCall.Init(context, store), StoreCall.Fetch(BYTES_KEY)]
    ensures changelog == []
  {
    var inner;
    inner, context, store := SetUp(name, toBinary);
    var _ := store.Fetch(BYTES_KEY);
    invocations := inner.invocations;
    changelog := context.changelog;
  }

  method ShouldDelegateToUnderlyingStoreWhenBackwardFetching(name: string, toBinary: Windowed -> Bytes)
    returns (context: ProcessorContext, store: ChangeLoggingSessionBytesStore, invocations: seq<StoreCall>, changelog: seq<LogRecord>)
    ensures store.context == context && invocations == store.inner.invocations && changelog == context.changelog
    ensures invocations == [StoreCall.Init(context, store), StoreCall.BackwardFetch(BYTES_KEY)]
    ensures changelog == []
  {
    var inner;
    inner, context, store := SetUp(name, toBinary);
    var _ := store.BackwardFetch(BYTES_KEY);
    invocations := inner.invocations;
    changelog := context.changelog;
  }

  method ShouldDelegateToUnderlyingStoreWhenFetchingRange(name: string, toBinary: Windowed -> Bytes)
    returns (context: ProcessorContext, store: ChangeLoggingSessionBytesStore, invocations: seq<StoreCall>, changelog: seq<LogRecord>)
    ensures store.context == context && invocations == store.inner.invocations && changelog == context.changelog
    ensures invocations == [StoreCall.Init(context, store), StoreCall.FetchRange(BYTES_KEY, BYTES_KEY)]
    ensures changelog == []
  {
    var inner;
    inner, context, store := SetUp(name, toBinary);
    var _ := store.FetchRange(BYTES_KEY, BYTES_KEY);
    invocations := inner.invocations;
    changelog := context.changelog;
  }

  method ShouldDelegateToUnderlyingStoreWhenBackwardFetchingRange(name: string, toBinary: Windowed -> Bytes)
    returns (context: ProcessorContext, store: ChangeLoggingSessionBytesStore, invocations: seq<StoreCall>, changelog: seq<LogRecord>)
    ensures store.context == context && invocations == store.inner.invocations && changelog == context.changelog
    ensures invocations == [StoreCall.Init(context, store), StoreCall.BackwardFetchRange(BYTES_KEY, BYTES_KEY)]
    ensures changelog == []
  {
    var inner;
    inner, context, store := SetUp(name, toBinary);
    var _ := store.BackwardFetchRange(BYTES_KEY, BYTES_KEY);
    invocations := inner.invocations;
    changelog := context.changelog;
  }

  method ShouldDelegateToUnderlyingStoreWhenFindingSessions(name: string, toBinary: Windowed -> Bytes)
    returns (context: ProcessorContext, store: ChangeLoggingSessionBytesStore, invocations: seq<StoreCall>, changelog: seq<LogRecord>)
    ensures store.context == context && invocations == store.inner.invocations && changelog == context.changelog
    ensures invocations == [StoreCall.Init(context, store), StoreCall.FindSessions(BYTES_KEY, 0, 1)]
    ensures changelog == []
  {
    var inner;
    inner, context, store := SetUp(name, toBinary);
    var _ := store.FindSessions(BYTES_KEY, 0, 1);
    invocations := inner.invocations;
    changelog := context.changelog;
  }

  method ShouldDelegateToUnderlyingStoreWhenBackwardFindingSessions(name: string, toBinary: Windowed -> Bytes)
    returns (context: ProcessorContext, store: ChangeLoggingSessionBytesStore, invocations: seq<StoreCall>, changelog: seq<LogRecord>)
    ensures store.context == context && invocations == store.inner.invocations && changelog == context.changelog
    ensures invocations == [StoreCall.Init(context, store), StoreCall.BackwardFindSessions(BYTES_KEY, 0, 1)]
    ensures changelog == []
  {
    var inner;
    inner, context, store := SetUp(name, toBinary);
    var _ := store.BackwardFindSessions(BYTES_KEY, 0, 1);
    invocations := inner.invocations;
    changelog := context.changelog;
  }

  method ShouldDelegateToUnderlyingStoreWhenFindingSessionRange(name: string, toBinary: Windowed -> Bytes)
    returns (context: ProcessorContext, store: ChangeLoggingSessionBytesStore, invocations: seq<StoreCall>, changelog: seq<LogRecord>)
    ensures store.context == context && invocations == store.inner.invocations && changelog == context.changelog
    ensures invocations == [StoreCall.Init(context, store), StoreCall.FindSessionRange(BYTES_KEY, BYTES_KEY, 0, 1)]
    ensures changelog == []
  {
    var inner;
    inner, context, store := SetUp(name, toBinary);
    var _ := store.FindSessionRange(BYTES_KEY, BYTES_KEY, 0, 1);
    invocations := inner.invocations;
    changelog := context.changelog;
  }

  method ShouldDelegateToUnderlyingStoreWhenBackwardFindingSessionRange(name: string, toBinary: Windowed -> Bytes)
    returns (context: ProcessorContext, store: ChangeLoggingSessionBytesStore, invocations: seq<StoreCall>, changelog: seq<LogRecord>)
    ensures store.context == context && invocations == store.inner.invocations && changelog == context.changelog
    ensures invocations == [StoreCall.Init(context, store), StoreCall.BackwardFindSessionRange(BYTES_KEY, BYTES_KEY, 0, 1)]
    ensures changelog == []
  {
    var inner;
    inner, context, store := SetUp(name, toBinary);
    var _ := store.BackwardFindSessionRange(BYTES_KEY, BYTES_KEY, 0, 1);
    invocations := inner.invocations;
    changelog := context.changelog;
  }

  method ShouldFlushUnderlyingStore(name: string, toBinary: Windowed -> Bytes)
    returns (context: ProcessorContext, store: ChangeLoggingSessionBytesStore, invocations: seq<StoreCall>, changelog: seq<LogRecord>)
    ensures store.context == context && invocations == store.inner.invocations && changelog == context.changelog
    ensures invocations == [StoreCall.Init(context, store), StoreCall.Flush]
    ensures changelog == []
  {
    var inner;
    inner, context, store := SetUp(name, toBinary);
    store.Flush();
    invocations := inner.invocations;
    changelog := context.changelog;
  }

  method ShouldCloseUnderlyingStore(name: string, toBinary: Windowed -> Bytes)
    returns (context: ProcessorContext, store: ChangeLoggingSessionBytesStore, invocations: seq<StoreCall>, changelog: seq<LogRecord>)
    ensures store.context == context && invocations == store.inner.invocations && changelog == context.changelog
    ensures invocations == [StoreCall.Init(context, store), StoreCall.Close]
    ensures changelog == []
  {
    var inner;
    inner, context, store := SetUp(name, toBinary);
    store.Close();
    invocations := inner.invocations;
    changelog := context.changelog;
  }
}
