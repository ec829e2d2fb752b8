/** The errors the core reports, and the result type its operations return. */
module Errors {
  import Json

  datatype Error =
    /** The file-change channel has no sender any more ("The file watcher is broken"). */
    | WatcherBroken
    /** The event-type snapshot is empty after a synchronisation ("The database schema does not seem to be valid or ready"). */
    | SchemaNotValid
    /** The parsed event-type file held no event type ("Could not parse a single event_type from <file>"). */
    | EmptyEventTypes(file: string)
    /** The chosen event type is not an object with an object `type_mapping` ("Invalid event_type object ..."). */
    | InvalidEventType(value: Json.Value)
    /** Reading or parsing the event-type file failed, or registering the watch did. */
    | Io(reason: string)
    /** The database refused the statement with this text. */
    | Refused(sql: string)
    /** Indexing a map with an absent key: in the program this panics. */
    | Panic(missingKey: string)
    /** Drawing a random index from an empty range: in the program this panics. */
    | EmptyRange

  datatype Result<+T> = Ok(value: T) | Err(error: Error)

}
