/**
 * The shapes of the records the calendar-sync service keeps (the Query and
 * Event collections) and of the values its event controller exchanges with
 * the Google Calendar provider.
 *
 * Dates are JavaScript `Date` values, modelled as integer milliseconds since
 * the Unix epoch; MongoDB `_id`s are natural numbers handed out by the store.
 */
module Schema {

  datatype Option<+T> = None | Some(value: T)

  /** The outcome of an operation that reports failures through an error callback. */
  datatype Result<+T> = Ok(value: T) | Err(error: Error)

  /** Milliseconds since the Unix epoch. */
  type Timestamp = int

  /** A MongoDB document identifier (`_id`). */
  type ObjectId = nat

  /** The `_id` of a stored User. */
  type UserId = ObjectId

  /** The identifier Google Calendar gives an event. */
  type GoogleId = string

  /** A requested range bound: `null` (no bound) or a date. */
  type Bound = Option<Timestamp>

  /** The fields of a provider event the service never looks into. */
  type Payload(==)

  /** A JavaScript error object: its `name` and its message. */
  datatype Error = Error(name: string, message: string)

  /**
   * One item of the provider's `events.list` reply: its identifier, the
   * `start.dateTime` and `end.dateTime` fields (absent for all-day events)
   * and everything else it carries.
   */
  datatype ProviderEvent = ProviderEvent(
    id: GoogleId,
    start: Option<Timestamp>,
    end: Option<Timestamp>,
    rest: Payload)

  /** A stored Event document; `data` is the whole provider event, kept verbatim. */
  datatype Event = Event(
    id: ObjectId,
    googleEventId: GoogleId,
    startDate: Option<Timestamp>,
    endDate: Option<Timestamp>,
    lastQueried: Timestamp,
    data: ProviderEvent)

  /** A stored Query document: a cached answer for one user and one date range. */
  datatype Query = Query(
    id: ObjectId,
    user: UserId,
    events: seq<ObjectId>,
    startDate: Bound,
    endDate: Bound,
    updated: Timestamp)
}
