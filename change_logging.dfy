/**
 * `ChangeLoggingSessionBytesStore`: a session store that forwards every call to the
 * store it wraps and, after each `put` and `remove`, appends one record to the
 * processor context's change log. Reads, `flush` and `close` are forwarded only.
 */
module ChangeLogging {
  import opened Wrappers
  import opened SessionKeys
  import opened ProcessorContexts
  import opened SessionStores

  /** A change applied to the wrapped store through the decorator. */
  datatype Mutation = Write(sessionKey: Windowed, aggregate: Bytes) | Delete(sessionKey: Windowed)

  /** The changes among a sequence of invocations, in order. */
  function MutationsOf(calls: seq<StoreCall>): seq<Mutation>
  {
    if calls == [] then []
    else
      var last := calls[|calls| - 1];
      MutationsOf(calls[..|calls| - 1]) +
        match last
        case Put(k, v) => [Write(k, v)]
        case Remove(k) => [Delete(k)]
        case _ => []
  }

  /** Picking out the changes distributes over concatenation of invocation traces. */
  lemma {:induction false} MutationsOfAppend(xs: seq<StoreCall>, ys: seq<StoreCall>)
    ensures MutationsOf(xs + ys) == MutationsOf(xs) + MutationsOf(ys)
  {
    if ys != [] {
      var zs := xs + ys;
      assert zs[..|zs| - 1] == xs + ys[..|ys| - 1];
      MutationsOfAppend(xs, ys[..|ys| - 1]);
    } else {
      assert xs + ys == xs;
    }
  }

  /** The effect of one change on the store's contents. */
  function Apply(entries: map<Windowed, Bytes>, m: Mutation): map<Windowed, Bytes>
  {
    match m
    case Write(k, v) => entries[k := v]
    case Delete(k) => entries - {k}
  }

  /** The contents after applying changes in order. */
  function ApplyAll(entries: map<Windowed, Bytes>, ms: seq<Mutation>): map<Windowed, Bytes>
  {
    if ms == [] then entries else Apply(ApplyAll(entries, ms[..|ms| - 1]), ms[|ms| - 1])
  }

  /** `rec` is the change-log record of `m` for store `name`: the binary key and the value, or a tombstone. */
  predicate Describes(name: string, toBinary: Windowed -> Bytes, rec: LogRecord, m: Mutation)
  {
    && rec.storeName == name
    && rec.key == toBinary(m.sessionKey)
    && rec.value == (match m case Write(_, v) => Some(v) case Delete(_) => None)
  }

  /** The records and the changes correspond one to one, in order. */
  predicate LogFollows(name: string, toBinary: Windowed -> Bytes, recs: seq<LogRecord>, ms: seq<Mutation>)
  {
    && |recs| == |ms|
    && (recs != [] ==>
          && LogFollows(name, toBinary, recs[..|recs| - 1], ms[..|ms| - 1])
          && Describes(name, toBinary, recs[|recs| - 1], ms[|ms| - 1]))
  }

  /** Replaying one change-log record over contents keyed by binary key; a tombstone deletes. */
  function Replay(contents: map<Bytes, Bytes>, rec: LogRecord): map<Bytes, Bytes>
  {
    match rec.value
    case Some(v) => contents[rec.key := v]
    case None => contents - {rec.key}
  }

  /** Replaying change-log records in order. */
  function Restore(contents: map<Bytes, Bytes>, recs: seq<LogRecord>): map<Bytes, Bytes>
  {
    if recs == [] then contents else Replay(Restore(contents, recs[..|recs| - 1]), recs[|recs| - 1])
  }

  ghost predicate Injective(toBinary: Windowed -> Bytes)
  {
    forall k1, k2 :: toBinary(k1) == toBinary(k2) ==> k1 == k2
  }

  /**
   * `contents`, keyed by binary key, holds what `entries` holds: each windowed key
   * is present under its binary form exactly when it is in the store, with its value.
   */
  ghost predicate Encodes(toBinary: Windowed -> Bytes, contents: map<Bytes, Bytes>, entries: map<Windowed, Bytes>)
  {
    forall k :: (toBinary(k) in contents <==> k in entries) && (k in entries ==> contents[toBinary(k)] == entries[k])
  }

  /** Replaying the record of one change has the effect of that change. */
  lemma ReplayDescribed(name: string, toBinary: Windowed -> Bytes, contents: map<Bytes, Bytes>, entries: map<Windowed, Bytes>, rec: LogRecord, m: Mutation)
    requires Injective(toBinary) && Describes(name, toBinary, rec, m) && Encodes(toBinary, contents, entries)
    ensures Encodes(toBinary, Replay(contents, rec), Apply(entries, m))
  {
  }

  /**
   * The change log is enough to rebuild the store: replaying the records the
   * decorator appended, over the contents the store had before them, gives the
   * store's current contents, provided the binary key form tells keys apart.
   */
  lemma {:induction false} RestoreFromChangelog(name: string, toBinary: Windowed -> Bytes, contents: map<Bytes, Bytes>, entries: map<Windowed, Bytes>, recs: seq<LogRecord>, ms: seq<Mutation>)
    requires Injective(toBinary) && LogFollows(name, toBinary, recs, ms) && Encodes(toBinary, contents, entries)
    ensures Encodes(toBinary, Restore(contents, recs), ApplyAll(entries, ms))
  {
    if recs != [] {
      var n := |recs| - 1;
      RestoreFromChangelog(name, toBinary, contents, entries, recs[..n], ms[..n]);
      ReplayDescribed(name, toBinary, Restore(contents, recs[..n]), ApplyAll(entries, ms[..n]), recs[n], ms[n]);
    }
  }

  /** A forwarded change followed by the position query is one change, whatever it is. */
  lemma ForwardedChange(c: StoreCall, m: Mutation)
    requires MutationsOf([c]) == [m]
    ensures MutationsOf([c, StoreCall.GetPosition]) == [m]
  {
  }

  /** Extending a corresponding pair of record and change sequences keeps them corresponding. */
  lemma LogFollowsSnoc(name: string, toBinary: Windowed -> Bytes, recs: seq<LogRecord>, ms: seq<Mutation>, rec: LogRecord, m: Mutation)
    requires LogFollows(name, toBinary, recs, ms) && Describes(name, toBinary, rec, m)
    ensures LogFollows(name, toBinary, recs + [rec], ms + [m])
  {
  }

  /**
   * What the decorator keeps true since `init`: the changes among the wrapped
   * store's invocations are `history`, its contents are `history` applied to
   * the contents at `init`, and the change log holds one record per change, in order.
   */
  ghost predicate Tracks(name: string, toBinary: Windowed -> Bytes, calls: seq<StoreCall>, log: seq<LogRecord>,
                         entriesAtInit: map<Windowed, Bytes>, entries: map<Windowed, Bytes>, history: seq<Mutation>)
  {
    && MutationsOf(calls) == history
    && entries == ApplyAll(entriesAtInit, history)
    && LogFollows(name, toBinary, log, history)
  }

  /** A forwarded change, logged once, keeps the correspondence. */
  lemma TracksChange(name: string, toBinary: Windowed -> Bytes, calls: seq<StoreCall>, log: seq<LogRecord>,
                     entriesAtInit: map<Windowed, Bytes>, entries: map<Windowed, Bytes>, history: seq<Mutation>,
                     newCalls: seq<StoreCall>, rec: LogRecord, m: Mutation)
    requires Tracks(name, toBinary, calls, log, entriesAtInit, entries, history)
    requires MutationsOf(newCalls) == [m] && Describes(name, toBinary, rec, m)
    ensures Tracks(name, toBinary, calls + newCalls, log + [rec], entriesAtInit, Apply(entries, m), history + [m])
  {
    MutationsOfAppend(calls, newCalls);
    LogFollowsSnoc(name, toBinary, log, history, rec, m);
    assert (history + [m])[..|history|] == history;
  }

  /** A forwarded call that changes nothing, and logs nothing, keeps the correspondence. */
  lemma TracksQuiet(name: string, toBinary: Windowed -> Bytes, calls: seq<StoreCall>, log: seq<LogRecord>,
                    entriesAtInit: map<Windowed, Bytes>, entries: map<Windowed, Bytes>, history: seq<Mutation>, c: StoreCall)
    requires Tracks(name, toBinary, calls, log, entriesAtInit, entries, history) && !IsMutation(c)
    ensures Tracks(name, toBinary, calls + [c], log, entriesAtInit, entries, history)
  {
  }

  /**
   * The change-logging decorator over a session store. Its name is the wrapped
   * store's (`inner.name`); the processor context may be shared with other stores.
   */
  class ChangeLoggingSessionBytesStore {
    const inner: SessionStore
    /** `SessionKeySchema.toBinary`, whose byte layout is not part of this model. */
    const toBinary: Windowed -> Bytes
    /** The context given to `init`; `null` before it. */
    var context: ProcessorContext?

    /** The changes made through this decorator since `init`. */
    ghost var history: seq<Mutation>
    /** The invocations this decorator made on the wrapped store since `init`. */
    ghost var forwarded: seq<StoreCall>
    /** The records this decorator appended to the change log since `init`. */
    ghost var logged: seq<LogRecord>
    ghost var entriesAtInit: map<Windowed, Bytes>
    ghost var invocationsAtInit: seq<StoreCall>

    /**
     * Since `init`, the wrapped store received exactly the changes in `history`,
     * its contents are those changes applied in order, and this store logged
     * exactly one matching record per change, in the same order. It does not read
     * the context's change log, which other stores of the task may share.
     */
    ghost predicate Valid()
      reads this, inner
    {
      context != null ==>
        && inner.invocations == invocationsAtInit + forwarded
        && Tracks(inner.name, toBinary, forwarded, logged, entriesAtInit, inner.entries, history)
    }

    constructor (inner: SessionStore, toBinary: Windowed -> Bytes)
      ensures this.inner == inner && this.toBinary == toBinary && context == null
      ensures Valid()
    {
      this.inner := inner;
      this.toBinary := toBinary;
      context := null;
    }

    /** Keeps the context for logging and forwards the same context and root to the wrapped store. */
    method Init(context: ProcessorContext, root: object)
      modifies this`context, this`history, this`forwarded, this`logged, this`entriesAtInit,
        this`invocationsAtInit, inner`invocations
      ensures this.context == context && Valid()
      ensures inner.invocations == old(inner.invocations) + [StoreCall.Init(context, root)]
      ensures history == [] && logged == []
    {
      this.context := context;
      inner.Init(context, root);
      history, forwarded, logged := [], [], [];
      entriesAtInit := inner.entries;
      invocationsAtInit := inner.invocations;
    }

    /**
     * Forwards the put, then logs the binary key and the value with the current
     * record's timestamp and the position the wrapped store reports after the put.
     */
    method Put(sessionKey: Windowed, aggregate: Bytes)
      requires context != null
      modifies inner`entries, inner`invocations, context`changelog, this`history, this`forwarded, this`logged
      ensures old(Valid()) ==> Valid()
      ensures inner.entries == old(inner.entries)[sessionKey := aggregate]
      ensures inner.invocations == old(inner.invocations) + [StoreCall.Put(sessionKey, aggregate), StoreCall.GetPosition]
      ensures context.changelog == old(context.changelog) +
        [LogRecord(inner.name, toBinary(sessionKey), Some(aggregate), context.recordContext.timestamp, inner.position)]
      ensures history == old(history) + [Write(sessionKey, aggregate)]
      ensures logged == old(logged) + [LogRecord(inner.name, toBinary(sessionKey), Some(aggregate), context.recordContext.timestamp, inner.position)]
    {
      ghost var wasValid := Valid();
      ghost var entriesBefore := inner.entries;
      ghost var rec := LogRecord(inner.name, toBinary(sessionKey), Some(aggregate), context.recordContext.timestamp, inner.position);
      inner.Put(sessionKey, aggregate);
      var timestamp := context.recordContext.timestamp;
      var position := inner.GetPosition();
      context.LogChange(inner.name, toBinary(sessionKey), Some(aggregate), timestamp, position);
      ForwardedChange(StoreCall.Put(sessionKey, aggregate), Write(sessionKey, aggregate));
      Changed([StoreCall.Put(sessionKey, aggregate), StoreCall.GetPosition], rec, Write(sessionKey, aggregate), wasValid, entriesBefore);
    }

    /**
     * Forwards the remove, then logs the binary key with a tombstone, whether or
     * not the key was present.
     */
    method Remove(sessionKey: Windowed)
      requires context != null
      modifies inner`entries, inner`invocations, context`changelog, this`history, this`forwarded, this`logged
      ensures old(Valid()) ==> Valid()
      ensures inner.entries == old(inner.entries) - {sessionKey}
      ensures inner.invocations == old(inner.invocations) + [StoreCall.Remove(sessionKey), StoreCall.GetPosition]
      ensures context.changelog == old(context.changelog) +
        [LogRecord(inner.name, toBinary(sessionKey), None, context.recordContext.timestamp, inner.position)]
      ensures history == old(history) + [Delete(sessionKey)]
      ensures logged == old(logged) + [LogRecord(inner.name, toBinary(sessionKey), None, context.recordContext.timestamp, inner.position)]
    {
      ghost var wasValid := Valid();
      ghost var entriesBefore := inner.entries;
      ghost var rec := LogRecord(inner.name, toBinary(sessionKey), None, context.recordContext.timestamp, inner.position);
      inner.Remove(sessionKey);
      var timestamp := context.recordContext.timestamp;
      var position := inner.GetPosition();
      context.LogChange(inner.name, toBinary(sessionKey), None, timestamp, position);
      ForwardedChange(StoreCall.Remove(sessionKey), Delete(sessionKey));
      Changed([StoreCall.Remove(sessionKey), StoreCall.GetPosition], rec, Delete(sessionKey), wasValid, entriesBefore);
    }

    /** Forwarded unchanged: the wrapped store's answer, no record, no change to the contents. */
    method Fetch(key: Bytes) returns (r: map<Windowed, Bytes>)
      modifies inner`invocations, this`forwarded
      ensures old(Valid()) ==> Valid()
      ensures r == Sessions(inner.entries, key, key, AnyTime)
      ensures inner.invocations == old(inner.invocations) + [StoreCall.Fetch(key)]
      ensures inner.entries == old(inner.entries) && history == old(history) && logged == old(logged)
      ensures context != null ==> context.changelog == old(context.changelog)
    {
      ghost var wasValid := Valid();
      r := inner.Fetch(key);
      Quiet(StoreCall.Fetch(key), wasValid);
    }

    /** Forwarded unchanged: the wrapped store's answer, no record, no change to the contents. */
    method BackwardFetch(key: Bytes) returns (r: map<Windowed, Bytes>)
      modifies inner`invocations, this`forwarded
      ensures old(Valid()) ==> Valid()
      ensures r == Sessions(inner.entries, key, key, AnyTime)
      ensures inner.invocations == old(inner.invocations) + [StoreCall.BackwardFetch(key)]
      ensures inner.entries == old(inner.entries) && history == old(history) && logged == old(logged)
      ensures context != null ==> context.changelog == old(context.changelog)
    {
      ghost var wasValid := Valid();
      r := inner.BackwardFetch(key);
      Quiet(StoreCall.BackwardFetch(key), wasValid);
    }

    /** Forwarded unchanged: the wrapped store's answer, no record, no change to the contents. */
    method FetchRange(keyFrom: Bytes, keyTo: Bytes) returns (r: map<Windowed, Bytes>)
      modifies inner`invocations, this`forwarded
      ensures old(Valid()) ==> Valid()
      ensures r == Sessions(inner.entries, keyFrom, keyTo, AnyTime)
      ensures inner.invocations == old(inner.invocations) + [StoreCall.FetchRange(keyFrom, keyTo)]
      ensures inner.entries == old(inner.entries) && history == old(history) && logged == old(logged)
      ensures context != null ==> context.changelog == old(context.changelog)
    {
      ghost var wasValid := Valid();
      r := inner.FetchRange(keyFrom, keyTo);
      Quiet(StoreCall.FetchRange(keyFrom, keyTo), wasValid);
    }

    /** Forwarded unchanged: the wrapped store's answer, no record, no change to the contents. */
    method BackwardFetchRange(keyFrom: Bytes, keyTo: Bytes) returns (r: map<Windowed, Bytes>)
      modifies inner`invocations, this`forwarded
      ensures old(Valid()) ==> Valid()
      ensures r == Sessions(inner.entries, keyFrom, keyTo, AnyTime)
      ensures inner.invocations == old(inner.invocations) + [StoreCall.BackwardFetchRange(keyFrom, keyTo)]
      ensures inner.entries == old(inner.entries) && history == old(history) && logged == old(logged)
      ensures context != null ==> context.changelog == old(context.changelog)
    {
      ghost var wasValid := Valid();
      r := inner.BackwardFetchRange(keyFrom, keyTo);
      Quiet(StoreCall.BackwardFetchRange(keyFrom, keyTo), wasValid);
    }

    /** Forwarded unchanged: the wrapped store's answer, no record, no change to the contents. */
    method FindSessions(key: Bytes, earliestSessionEndTime: int64, latestSessionStartTime: int64) returns (r: map<Windowed, Bytes>)
      modifies inner`invocations, this`forwarded
      ensures old(Valid()) ==> Valid()
      ensures r == Sessions(inner.entries, key, key, Overlapping(earliestSessionEndTime, latestSessionStartTime))
      ensures inner.invocations == old(inner.invocations) + [StoreCall.FindSessions(key, earliestSessionEndTime, latestSessionStartTime)]
      ensures inner.entries == old(inner.entries) && history == old(history) && logged == old(logged)
      ensures context != null ==> context.changelog == old(context.changelog)
    {
      ghost var wasValid := Valid();
      r := inner.FindSessions(key, earliestSessionEndTime, latestSessionStartTime);
      Quiet(StoreCall.FindSessions(key, earliestSessionEndTime, latestSessionStartTime), wasValid);
    }

    /** Forwarded unchanged: the wrapped store's answer, no record, no change to the contents. */
    method BackwardFindSessions(key: Bytes, earliestSessionEndTime: int64, latestSessionStartTime: int64) returns (r: map<Windowed, Bytes>)
      modifies inner`invocations, this`forwarded
      ensures old(Valid()) ==> Valid()
      ensures r == Sessions(inner.entries, key, key, Overlapping(earliestSessionEndTime, latestSessionStartTime))
      ensures inner.invocations == old(inner.invocations) + [StoreCall.BackwardFindSessions(key, earliestSessionEndTime, latestSessionStartTime)]
      ensures inner.entries == old(inner.entries) && history == old(history) && logged == old(logged)
      ensures context != null ==> context.changelog == old(context.changelog)
    {
      ghost var wasValid := Valid();
      r := inner.BackwardFindSessions(key, earliestSessionEndTime, latestSessionStartTime);
      Quiet(StoreCall.BackwardFindSessions(key, earliestSessionEndTime, latestSessionStartTime), wasValid);
    }

    /** Forwarded unchanged: the wrapped store's answer, no record, no change to the contents. */
    method FindSessionRange(keyFrom: Bytes, keyTo: Bytes, earliestSessionEndTime: int64, latestSessionStartTime: int64) returns (r: map<Windowed, Bytes>)
      modifies inner`invocations, this`forwarded
      ensures old(Valid()) ==> Valid()
      ensures r == Sessions(inner.entries, keyFrom, keyTo, Overlapping(earliestSessionEndTime, latestSessionStartTime))
      ensures inner.invocations == old(inner.invocations) + [StoreCall.FindSessionRange(keyFrom, keyTo, earliestSessionEndTime, latestSessionStartTime)]
      ensures inner.entries == old(inner.entries) && history == old(history) && logged == old(logged)
      ensures context != null ==> context.changelog == old(context.changelog)
    {
      ghost var wasValid := Valid();
      r := inner.FindSessionRange(keyFrom, keyTo, earliestSessionEndTime, latestSessionStartTime);
      Quiet(StoreCall.FindSessionRange(keyFrom, keyTo, earliestSessionEndTime, latestSessionStartTime), wasValid);
    }

    /** Forwarded unchanged: the wrapped store's answer, no record, no change to the contents. */
    method BackwardFindSessionRange(keyFrom: Bytes, keyTo: Bytes, earliestSessionEndTime: int64, latestSessionStartTime: int64) returns (r: map<Windowed, Bytes>)
      modifies inner`invocations, this`forwarded
      ensures old(Valid()) ==> Valid()
      ensures r == Sessions(inner.entries, keyFrom, keyTo, Overlapping(earliestSessionEndTime, latestSessionStartTime))
      ensures inner.invocations == old(inner.invocations) + [StoreCall.BackwardFindSessionRange(keyFrom, keyTo, earliestSessionEndTime, latestSessionStartTime)]
      ensures inner.entries == old(inner.entries) && history == old(history) && logged == old(logged)
      ensures context != null ==> context.changelog == old(context.changelog)
    {
      ghost var wasValid := Valid();
      r := inner.BackwardFindSessionRange(keyFrom, keyTo, earliestSessionEndTime, latestSessionStartTime);
      Quiet(StoreCall.BackwardFindSessionRange(keyFrom, keyTo, earliestSessionEndTime, latestSessionStartTime), wasValid);
    }

    /** Forwarded unchanged; nothing is logged. */
    method Flush()
      modifies inner`invocations, this`forwarded
      ensures old(Valid()) ==> Valid()
      ensures inner.invocations == old(inner.invocations) + [StoreCall.Flush]
      ensures inner.entries == old(inner.entries) && history == old(history) && logged == old(logged)
      ensures context != null ==> context.changelog == old(context.changelog)
    {
      ghost var wasValid := Valid();
      inner.Flush();
      Quiet(StoreCall.Flush, wasValid);
    }

    /** Forwarded unchanged; nothing is logged. */
    method Close()
      modifies inner`invocations, this`forwarded
      ensures old(Valid()) ==> Valid()
      ensures inner.invocations == old(inner.invocations) + [StoreCall.Close]
      ensures inner.entries == old(inner.entries) && history == old(history) && logged == old(logged)
      ensures context != null ==> context.changelog == old(context.changelog)
    {
      ghost var wasValid := Valid();
      inner.Close();
      Quiet(StoreCall.Close, wasValid);
    }

    /**
     * Accounts for the calls just forwarded to the wrapped store, which hold the
     * one change `m`, and the record `rec` just logged for it; `wasValid` says
     * whether `Valid()` held before them and `entriesBefore` is the contents then.
     */
    ghost method Changed(calls: seq<StoreCall>, rec: LogRecord, m: Mutation, wasValid: bool, entriesBefore: map<Windowed, Bytes>)
      requires MutationsOf(calls) == [m] && Describes(inner.name, toBinary, rec, m)
      requires wasValid && context != null ==>
        && inner.invocations == invocationsAtInit + forwarded + calls
        && Tracks(inner.name, toBinary, forwarded, logged, entriesAtInit, entriesBefore, history)
        && inner.entries == Apply(entriesBefore, m)
      modifies this`history, this`forwarded, this`logged
      ensures history == old(history) + [m] && forwarded == old(forwarded) + calls && logged == old(logged) + [rec]
      ensures wasValid ==> Valid()
    {
      if wasValid && context != null {
        TracksChange(inner.name, toBinary, forwarded, logged, entriesAtInit, entriesBefore, history, calls, rec, m);
      }
      history, forwarded, logged := history + [m], forwarded + calls, logged + [rec];
    }

    /**
     * Accounts for a call `c`, just forwarded to the wrapped store, that changes
     * nothing and logs nothing; `wasValid` says whether `Valid()` held before it.
     */
    ghost method Quiet(c: StoreCall, wasValid: bool)
      requires !IsMutation(c)
      requires wasValid && context != null ==>
        && inner.invocations == invocationsAtInit + forwarded + [c]
        && Tracks(inner.name, toBinary, forwarded, logged, entriesAtInit, inner.entries, history)
      modifies this`forwarded
      ensures wasValid ==> Valid()
    {
      if context != null {
        if wasValid {
          TracksQuiet(inner.name, toBinary, forwarded, logged, entriesAtInit, inner.entries, history, c);
        }
        forwarded := forwarded + [c];
      }
    }

    /**
     * Replaying the records this store logged since `init`, over the contents the
     * wrapped store had at `init` keyed by binary key, gives its current contents.
     */
    lemma ChangelogRestoresStore(contentsAtInit: map<Bytes, Bytes>)
      requires context != null && Valid() && Injective(toBinary)
      requires Encodes(toBinary, contentsAtInit, entriesAtInit)
      ensures Encodes(toBinary, Restore(contentsAtInit, logged), inner.entries)
    {
      RestoreFromChangelog(inner.name, toBinary, contentsAtInit, entriesAtInit, logged, history);
    }
  }
}
