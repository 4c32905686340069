/**
 * The `events.list` request the event controller sends to Google Calendar,
 * built from which bounds of the requested range are present.
 */
module CalendarRequest {
  import opened Schema

  /**
   * A request object; every field may be missing. `timeMin` and `timeMax`
   * are the bounds that the source renders with `toISOString`.
   */
  datatype Request = Request(
    calendarId: Option<string>,
    timeMin: Option<Timestamp>,
    timeMax: Option<Timestamp>,
    singleEvents: Option<bool>,
    orderBy: Option<string>)

  /** The provider's answer: the listed events, or the error it calls back with. */
  datatype ListReply = Items(items: seq<ProviderEvent>) | Failed(error: Error)

  /** The object literal `{}`. */
  const EmptyRequest := Request(None, None, None, None, None)

  /** A listing of the primary calendar, recurring events expanded, ordered by start time. */
  function Listing(timeMin: Option<Timestamp>, timeMax: Option<Timestamp>): Request
  {
    Request(Some("primary"), timeMin, timeMax, Some(true), Some("startTime"))
  }

  /**
   * The request window: `timeMin` is the start bound and `timeMax` the end
   * bound exactly when present, and every request lists the primary
   * calendar's single events by start time.
   */
  function RequestWindow(startDate: Bound, endDate: Bound): (r: Request)
    ensures r.timeMin == startDate && r.timeMax == endDate
    ensures r.calendarId == Some("primary")
    ensures r.singleEvents == Some(true) && r.orderBy == Some("startTime")
  {
    if startDate.None? && endDate.None? then
      Listing(None, None)
    else if startDate.None? then
      Listing(None, endDate)
    else if endDate.None? then
      Listing(startDate, None)
    else
      Listing(startDate, endDate)
  }

  /**
   * The request as the source builds it: in the end-only branch the
   * object is bound to a fresh block-scoped variable, so the request sent
   * is still `{}`.
   */
  function RequestWindowAsWritten(startDate: Bound, endDate: Bound): (r: Request)
    ensures startDate.None? && endDate.Some? ==> r == EmptyRequest
    ensures startDate.Some? || endDate.None? ==> r == RequestWindow(startDate, endDate)
  {
    var query := EmptyRequest;
    if startDate.None? && endDate.None? then
      Listing(None, None)
    else if startDate.None? then
      query
    else if endDate.None? then
      Listing(startDate, None)
    else
      Listing(startDate, endDate)
  }

  /** With only an end bound, the request as written names no calendar and no window. */
  lemma EndOnlyRequestIsEmpty(endDate: Timestamp)
    ensures RequestWindowAsWritten(None, Some(endDate)).calendarId.None?
    ensures RequestWindowAsWritten(None, Some(endDate)).timeMax.None?
    ensures RequestWindow(None, Some(endDate)).timeMax == Some(endDate)
  {
  }
}
