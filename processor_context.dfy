/**
 * The part of the processor context a change-logging store uses: the current
 * record's context (its timestamp) and the `logChange` sink, plus the consistency
 * position that travels with every change-log record.
 */
module ProcessorContexts {
  import opened Wrappers
  import opened SessionKeys

  /**
   * A consistency position: for each topic, the highest offset per partition
   * already reflected in a store. The change-logging store only passes it on.
   */
  datatype Position = Position(offsets: map<string, map<int32, int64>>)

  /** `Position.emptyPosition()`. */
  const EMPTY_POSITION: Position := Position(map[])

  /** The context of the record being processed; record headers are not modelled. */
  datatype RecordContext = RecordContext(timestamp: int64, offset: int64, partition: int32, topic: string)

  /**
   * One call of `logChange`: store name, binary key, value (`None` is the
   * tombstone `null`), timestamp and position.
   */
  datatype LogRecord = LogRecord(storeName: string, key: Bytes, value: Option<Bytes>, timestamp: int64, position: Position)

  /** A processor context; `changelog` holds the `logChange` calls in the order they were made. */
  class ProcessorContext {
    var recordContext: RecordContext
    var changelog: seq<LogRecord>

    constructor (recordContext: RecordContext)
      ensures this.recordContext == recordContext && changelog == []
    {
      this.recordContext := recordContext;
      changelog := [];
    }

    /** Appends one record to the change log and changes nothing else. */
    method LogChange(storeName: string, key: Bytes, value: Option<Bytes>, timestamp: int64, position: Position)
      modifies this`changelog
      ensures changelog == old(changelog) + [LogRecord(storeName, key, value, timestamp, position)]
    {
      changelog := changelog + [LogRecord(storeName, key, value, timestamp, position)];
    }
  }
}
