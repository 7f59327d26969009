/** What the calendar provider's API looks like to both of its clients
    (the server route and the library service): the event record, the
    list-events reply, and the shape of an authenticated request. */
module Luma {
  import opened Wrappers
  import opened Http
  import opened Text

  /** A provider event, restricted to the fields the pipeline reads.
      `cover_url` and `url` may be missing. */
  datatype LumaEvent = LumaEvent(
    apiId: string,
    name: string,
    startAt: string,
    coverUrl: Option<string>,
    url: Option<string>)

  /** One element of `entries`: it wraps an event. */
  datatype Entry = Entry(event: LumaEvent)

  /** A decoded reply body: one with a truthy `entries` list, or any other
      JSON (`null`, an object without `entries`, user information). */
  datatype LumaBody = WithEntries(entries: seq<Entry>) | WithoutEntries

  type LumaNetwork = Request -> FetchOutcome<LumaBody>

  const BaseUrl := "https://public-api.luma.com"
  const ListEventsEndpoint := "/v1/calendar/list-events"
  const DefaultCalendarId := "hearthgatherings"
  const MissingKeyMessage := "Luma API key is not configured"

  /** The request `makeRequest` sends: base URL plus endpoint, the API key
      header and a JSON content type. */
  function LumaRequest(apiKey: string, endpoint: string, query: Pairs): (r: Request)
    ensures Lookup(r.headers, "x-luma-api-key") == Some(apiKey)
    ensures Lookup(r.headers, "Content-Type") == Some("application/json")
    ensures StartsWith(r.url, BaseUrl)
  {
    Request(BaseUrl + endpoint, query, [("x-luma-api-key", apiKey), ("Content-Type", "application/json")])
  }

  /** `entries.map(entry => entry.event)`: one event per entry, in order. */
  function Unwrap(entries: seq<Entry>): (events: seq<LumaEvent>)
    ensures |events| == |entries|
    ensures forall i :: 0 <= i < |entries| ==> events[i] == entries[i].event
  {
    if entries == [] then [] else [entries[0].event] + Unwrap(entries[1..])
  }
}
