/**
 * The wrapped `SessionStore<Bytes, byte[]>` as the change-logging store sees it:
 * a recording store that applies writes to its contents, reports a position the
 * environment chooses, and keeps every invocation made on it in order.
 */
module SessionStores {
  import opened SessionKeys
  import opened ProcessorContexts

  /** One invocation on the wrapped store, with its arguments. */
  datatype StoreCall =
    | Init(context: ProcessorContext, root: object)
    | Put(sessionKey: Windowed, aggregate: Bytes)
    | Remove(sessionKey: Windowed)
    | GetPosition
    | Fetch(key: Bytes)
    | BackwardFetch(key: Bytes)
    | FetchRange(keyFrom: Bytes, keyTo: Bytes)
    | BackwardFetchRange(keyFrom: Bytes, keyTo: Bytes)
    | FindSessions(key: Bytes, earliestSessionEndTime: int64, latestSessionStartTime: int64)
    | BackwardFindSessions(key: Bytes, earliestSessionEndTime: int64, latestSessionStartTime: int64)
    | FindSessionRange(keyFrom: Bytes, keyTo: Bytes, earliestSessionEndTime: int64, latestSessionStartTime: int64)
    | BackwardFindSessionRange(keyFrom: Bytes, keyTo: Bytes, earliestSessionEndTime: int64, latestSessionStartTime: int64)
    | Flush
    | Close

  /** Whether a call changes the store's contents. */
  predicate IsMutation(c: StoreCall)
  {
    c.Put? || c.Remove?
  }

  /** The time restriction of a session query. */
  datatype TimeBounds =
    | AnyTime
    | Overlapping(earliestSessionEndTime: int64, latestSessionStartTime: int64)

  predicate InTimeBounds(w: SessionWindow, bounds: TimeBounds)
  {
    match bounds
    case AnyTime => true
    case Overlapping(earliestEnd, latestStart) => w.end >= earliestEnd && w.start <= latestStart
  }

  /**
   * The sessions a query returns: those whose raw key lies in `[keyFrom, keyTo]`
   * and whose window meets the time bounds, each with its stored value.
   */
  function Sessions(entries: map<Windowed, Bytes>, keyFrom: Bytes, keyTo: Bytes, bounds: TimeBounds): map<Windowed, Bytes>
  {
    map k | k in entries && LexLessEq(keyFrom, k.key) && LexLessEq(k.key, keyTo) && InTimeBounds(k.window, bounds) :: entries[k]
  }

  /** A single-key query returns exactly the sessions stored under that key. */
  lemma SingleKeySessions(entries: map<Windowed, Bytes>, key: Bytes, bounds: TimeBounds, k: Windowed)
    ensures k in Sessions(entries, key, key, bounds) <==> k in entries && k.key == key && InTimeBounds(k.window, bounds)
  {
    if k in entries && LexLessEq(key, k.key) && LexLessEq(k.key, key) {
      LexAntisymmetric(key, k.key);
    }
    if k.key == key {
      LexReflexive(key);
    }
  }

  /** The wrapped session store, recording every invocation made on it. */
  class SessionStore {
    const name: string
    var entries: map<Windowed, Bytes>
    var position: Position
    var invocations: seq<StoreCall>

    constructor (name: string)
      ensures this.name == name && entries == map[] && position == EMPTY_POSITION && invocations == []
    {
      this.name := name;
      entries := map[];
      position := EMPTY_POSITION;
      invocations := [];
    }

    /** What the environment makes `getPosition()` report from now on. */
    method StubPosition(p: Position)
      modifies this`position
      ensures position == p
    {
      position := p;
    }

    method Init(context: ProcessorContext, root: object)
      modifies this`invocations
      ensures invocations == old(invocations) + [StoreCall.Init(context, root)]
    {
      invocations := invocations + [StoreCall.Init(context, root)];
    }

    method Put(key: Windowed, value: Bytes)
      modifies this`entries, this`invocations
      ensures entries == old(entries)[key := value]
      ensures invocations == old(invocations) + [StoreCall.Put(key, value)]
    {
      entries := entries[key := value];
      invocations := invocations + [StoreCall.Put(key, value)];
    }

    /** Removing an absent key leaves the contents as they are. */
    method Remove(key: Windowed)
      modifies this`entries, this`invocations
      ensures entries == old(entries) - {key}
      ensures invocations == old(invocations) + [StoreCall.Remove(key)]
    {
      entries := entries - {key};
      invocations := invocations + [StoreCall.Remove(key)];
    }

    method GetPosition() returns (p: Position)
      modifies this`invocations
      ensures p == position
      ensures invocations == old(invocations) + [StoreCall.GetPosition]
    {
      p := position;
      invocations := invocations + [StoreCall.GetPosition];
    }

    method Fetch(key: Bytes) returns (r: map<Windowed, Bytes>)
      modifies this`invocations
      ensures r == Sessions(entries, key, key, AnyTime)
      ensures invocations == old(invocations) + [StoreCall.Fetch(key)]
    {
      r := Sessions(entries, key, key, AnyTime);
      invocations := invocations + [StoreCall.Fetch(key)];
    }

    method BackwardFetch(key: Bytes) returns (r: map<Windowed, Bytes>)
      modifies this`invocations
      ensures r == Sessions(entries, key, key, AnyTime)
      ensures invocations == old(invocations) + [StoreCall.BackwardFetch(key)]
    {
      r := Sessions(entries, key, key, AnyTime);
      invocations := invocations + [StoreCall.BackwardFetch(key)];
    }

    method FetchRange(keyFrom: Bytes, keyTo: Bytes) returns (r: map<Windowed, Bytes>)
      modifies this`invocations
      ensures r == Sessions(entries, keyFrom, keyTo, AnyTime)
      ensures invocations == old(invocations) + [StoreCall.FetchRange(keyFrom, keyTo)]
    {
      r := Sessions(entries, keyFrom, keyTo, AnyTime);
      invocations := invocations + [StoreCall.FetchRange(keyFrom, keyTo)];
    }

    method BackwardFetchRange(keyFrom: Bytes, keyTo: Bytes) returns (r: map<Windowed, Bytes>)
      modifies this`invocations
      ensures r == Sessions(entries, keyFrom, keyTo, AnyTime)
      ensures invocations == old(invocations) + [StoreCall.BackwardFetchRange(keyFrom, keyTo)]
    {
      r := Sessions(entries, keyFrom, keyTo, AnyTime);
      invocations := invocations + [StoreCall.BackwardFetchRange(keyFrom, keyTo)];
    }

    method FindSessions(key: Bytes, earliestSessionEndTime: int64, latestSessionStartTime: int64) returns (r: map<Windowed, Bytes>)
      modifies this`invocations
      ensures r == Sessions(entries, key, key, Overlapping(earliestSessionEndTime, latestSessionStartTime))
      ensures invocations == old(invocations) + [StoreCall.FindSessions(key, earliestSessionEndTime, latestSessionStartTime)]
    {
      r := Sessions(entries, key, key, Overlapping(earliestSessionEndTime, latestSessionStartTime));
      invocations := invocations + [StoreCall.FindSessions(key, earliestSessionEndTime, latestSessionStartTime)];
    }

    method BackwardFindSessions(key: Bytes, earliestSessionEndTime: int64, latestSessionStartTime: int64) returns (r: map<Windowed, Bytes>)
      modifies this`invocations
      ensures r == Sessions(entries, key, key, Overlapping(earliestSessionEndTime, latestSessionStartTime))
      ensures invocations == old(invocations) + [StoreCall.BackwardFindSessions(key, earliestSessionEndTime, latestSessionStartTime)]
    {
      r := Sessions(entries, key, key, Overlapping(earliestSessionEndTime, latestSessionStartTime));
      invocations := invocations + [StoreCall.BackwardFindSessions(key, earliestSessionEndTime, latestSessionStartTime)];
    }

    method FindSessionRange(keyFrom: Bytes, keyTo: Bytes, earliestSessionEndTime: int64, latestSessionStartTime: int64) returns (r: map<Windowed, Bytes>)
      modifies this`invocations
      ensures r == Sessions(entries, keyFrom, keyTo, Overlapping(earliestSessionEndTime, latestSessionStartTime))
      ensures invocations == old(invocations) + [StoreCall.FindSessionRange(keyFrom, keyTo, earliestSessionEndTime, latestSessionStartTime)]
    {
      r := Sessions(entries, keyFrom, keyTo, Overlapping(earliestSessionEndTime, latestSessionStartTime));
      invocations := invocations + [StoreCall.FindSessionRange(keyFrom, keyTo, earliestSessionEndTime, latestSessionStartTime)];
    }

    method BackwardFindSessionRange(keyFrom: Bytes, keyTo: Bytes, earliestSessionEndTime: int64, latestSessionStartTime: int64) returns (r: map<Windowed, Bytes>)
      modifies this`invocations
      ensures r == Sessions(entries, keyFrom, keyTo, Overlapping(earliestSessionEndTime, latestSessionStartTime))
      ensures invocations == old(invocations) + [StoreCall.BackwardFindSessionRange(keyFrom, keyTo, earliestSessionEndTime, latestSessionStartTime)]
    {
      r := Sessions(entries, keyFrom, keyTo, Overlapping(earliestSessionEndTime, latestSessionStartTime));
      invocations := invocations + [StoreCall.BackwardFindSessionRange(keyFrom, keyTo, earliestSessionEndTime, latestSessionStartTime)];
    }

    method Flush()
      modifies this`invocations
      ensures invocations == old(invocations) + [StoreCall.Flush]
    {
      invocations := invocations + [StoreCall.Flush];
    }

    method Close()
      modifies this`invocations
      ensures invocations == old(invocations) + [StoreCall.Close]
    {
      invocations := invocations + [StoreCall.Close];
    }
  }
}
