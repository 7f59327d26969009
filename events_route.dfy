/** The server route `GET /api/events`: a provider client built once from
    the environment, which asks for upcoming events and wraps the outcome
    in a JSON envelope for the browser. */
module EventsRoute {
  import opened Wrappers
  import opened Text
  import opened Http
  import opened Luma

  /** The client's configuration, fixed when the module is loaded. */
  datatype LumaApiService = LumaApiService(apiKey: string, calendarId: string)

  /** The constructor: the API key comes from `LUMA_API_KEY` (empty when
      unset), the calendar from `LUMA_CALENDAR_ID` unless that is unset or
      empty, in which case it is the default calendar. */
  function NewLumaApiService(env: Env): (s: LumaApiService)
    ensures s.apiKey == EnvValue(env, "LUMA_API_KEY")
    ensures EnvValue(env, "LUMA_CALENDAR_ID") != "" ==> s.calendarId == EnvValue(env, "LUMA_CALENDAR_ID")
    ensures EnvValue(env, "LUMA_CALENDAR_ID") == "" ==> s.calendarId == DefaultCalendarId
    ensures s.calendarId != ""
  {
    LumaApiService(Or(EnvValue(env, "LUMA_API_KEY"), ""), Or(EnvValue(env, "LUMA_CALENDAR_ID"), DefaultCalendarId))
  }

  const FailurePrefix := "Luma API request failed: "

  /** The message thrown for a non-2xx reply: the status, then its text. */
  function RequestFailedMessage<T>(reply: Reply<T>): (m: string)
    ensures StartsWith(m, FailurePrefix)
    ensures |m| > |FailurePrefix| + |NatToString(reply.status)|
    ensures m[|FailurePrefix|..|FailurePrefix| + |NatToString(reply.status)|] == NatToString(reply.status)
    ensures m[|FailurePrefix| + |NatToString(reply.status)|] == ' '
    ensures m[|FailurePrefix| + |NatToString(reply.status)| + 1..] == reply.statusText
  {
    FailurePrefix + NatToString(reply.status) + " " + reply.statusText
  }

  /** `makeRequest`: no request at all without an API key; otherwise one
      request, and only a 2xx reply whose body decodes resolves. */
  function MakeRequest(s: LumaApiService, endpoint: string, query: Pairs, net: LumaNetwork)
    : (c: Call<Settled<LumaBody>>)
    ensures s.apiKey == "" ==> c == Call(Rejected(MissingKeyMessage), [])
    ensures s.apiKey != "" ==> c.requests == [LumaRequest(s.apiKey, endpoint, query)]
    ensures c.result.Resolved? <==> s.apiKey != "" && DeliversJson(net(LumaRequest(s.apiKey, endpoint, query)))
    ensures c.result.Resolved? ==> c.result.value == net(LumaRequest(s.apiKey, endpoint, query)).reply.json.value
    ensures s.apiKey != "" && net(LumaRequest(s.apiKey, endpoint, query)).Delivered?
            && !IsOk(net(LumaRequest(s.apiKey, endpoint, query)).reply.status)
            ==> c.result == Rejected(RequestFailedMessage(net(LumaRequest(s.apiKey, endpoint, query)).reply))
    ensures s.apiKey != "" && net(LumaRequest(s.apiKey, endpoint, query)).NetworkError?
            ==> c.result == Rejected(net(LumaRequest(s.apiKey, endpoint, query)).message)
    ensures s.apiKey != "" && net(LumaRequest(s.apiKey, endpoint, query)).Delivered?
            && IsOk(net(LumaRequest(s.apiKey, endpoint, query)).reply.status)
            && net(LumaRequest(s.apiKey, endpoint, query)).reply.json.Unparsable?
            ==> c.result == Rejected(net(LumaRequest(s.apiKey, endpoint, query)).reply.json.message)
  {
    if s.apiKey == "" then Call(Rejected(MissingKeyMessage), [])
    else
      var request := LumaRequest(s.apiKey, endpoint, query);
      var settled :=
        match net(request)
        case NetworkError(message) => Rejected(message)
        case Delivered(reply) =>
          if !IsOk(reply.status) then Rejected(RequestFailedMessage(reply))
          else
            match reply.json
            case Unparsable(message) => Rejected(message)
            case Parsed(body) => Resolved(body);
      Call(settled, [request])
  }

  /** The query of the list-events request: calendar, limit, and the
      current time as the lower bound on the start date. */
  function UpcomingQuery(calendarId: string, limit: int, now: string): (q: Pairs)
    ensures Lookup(q, "calendar_id") == Some(calendarId)
    ensures Lookup(q, "limit") == Some(IntToString(limit))
    ensures Lookup(q, "after") == Some(now)
  {
    var q := [("calendar_id", calendarId), ("limit", IntToString(limit)), ("after", now)];
    assert q[1..][1..] == [("after", now)];
    assert "calendar_id"[0] != "after"[0] && "limit"[0] != "after"[0];
    assert Lookup(q[1..], "after") == Lookup(q[1..][1..], "after") == Some(now);
    q
  }

  /** Where `Array.prototype.slice(0, end)` stops on a list of length
      `len`: a negative end counts back from the end of the list. */
  function SliceEnd(len: nat, end: int): (k: nat)
    ensures k <= len
    ensures end >= 0 ==> k <= end && (k == end || k == len)
    ensures end < 0 ==> k + (-end) == len || (k == 0 && len < -end)
  {
    if end < 0 then (if len + end < 0 then 0 else len + end)
    else if end > len then len
    else end
  }

  /** `getUpcomingEvents(limit)`: the unwrapped entries cut to `limit`, an
      empty list for a body without entries, and every error of
      `makeRequest` thrown on to the caller. */
  function GetUpcomingEvents(s: LumaApiService, limit: int, now: string, net: LumaNetwork)
    : (c: Call<Settled<seq<LumaEvent>>>)
    ensures c.requests == MakeRequest(s, ListEventsEndpoint, UpcomingQuery(s.calendarId, limit, now), net).requests
    ensures c.result.Rejected? <==> MakeRequest(s, ListEventsEndpoint, UpcomingQuery(s.calendarId, limit, now), net).result.Rejected?
    ensures c.result.Rejected? ==> c.result.message == MakeRequest(s, ListEventsEndpoint, UpcomingQuery(s.calendarId, limit, now), net).result.message
  {
    var response := MakeRequest(s, ListEventsEndpoint, UpcomingQuery(s.calendarId, limit, now), net);
    var result :=
      match response.result
      case Rejected(message) => Rejected(message)
      case Resolved(WithEntries(entries)) =>
        var events := Unwrap(entries);
        Resolved(events[..SliceEnd(|events|, limit)])
      case Resolved(WithoutEntries) => Resolved([]);
    Call(result, response.requests)
  }

  /** For a non-negative limit, a resolved list is the first `limit`
      events of the reply (all of them when there are fewer), in order. */
  lemma UpcomingEventsArePrefix(s: LumaApiService, limit: int, now: string, net: LumaNetwork)
    requires limit >= 0
    ensures var c := GetUpcomingEvents(s, limit, now, net);
            var response := MakeRequest(s, ListEventsEndpoint, UpcomingQuery(s.calendarId, limit, now), net);
            && (c.result.Resolved? ==> |c.result.value| <= limit)
            && (response.result == Resolved(WithoutEntries) ==> c.result == Resolved([]))
            && (response.result.Resolved? && response.result.value.WithEntries? ==>
                  var events := Unwrap(response.result.value.entries);
                  && c.result.Resolved?
                  && c.result.value == events[..|c.result.value|]
                  && |c.result.value| == (if limit < |events| then limit else |events|))
  {
  }

  /** Every request the route sends asks the list-events endpoint of the
      configured calendar, with the key header and all three parameters. */
  lemma UpcomingRequestShape(s: LumaApiService, limit: int, now: string, net: LumaNetwork)
    ensures forall r :: r in GetUpcomingEvents(s, limit, now, net).requests ==>
              && r.url == BaseUrl + ListEventsEndpoint
              && Lookup(r.headers, "x-luma-api-key") == Some(s.apiKey)
              && Lookup(r.query, "calendar_id") == Some(s.calendarId)
              && Lookup(r.query, "limit") == Some(IntToString(limit))
              && Lookup(r.query, "after") == Some(now)
  {
  }

  /** The JSON body of the route's reply. */
  datatype Envelope =
    | Served(events: seq<LumaEvent>, count: int, timestamp: string)
    | Failed(error: string, message: string)
  {
    /** The HTTP status the route answers with. */
    function Status(): nat {
      if Served? then 200 else 500
    }

    /** The `success` field. */
    function Success(): bool {
      Served?
    }

    /** The `events` field: empty on failure, so the page keeps its own. */
    function Events(): seq<LumaEvent> {
      if Served? then events else []
    }
  }

  /** The number of events the route asks for. */
  const RouteLimit := 4
  const FetchFailedError := "Failed to fetch events"

  /** `GET`: on success the events with their count and the response time;
      on any error status 500, `success: false`, no events, and the
      error's message. */
  function Get(s: LumaApiService, requestTime: string, responseTime: string, net: LumaNetwork)
    : (c: Call<Envelope>)
    ensures c.requests == GetUpcomingEvents(s, RouteLimit, requestTime, net).requests
    ensures c.result.Success() <==> GetUpcomingEvents(s, RouteLimit, requestTime, net).result.Resolved?
    ensures c.result.Served? ==>
              && c.result.events == GetUpcomingEvents(s, RouteLimit, requestTime, net).result.value
              && c.result.count == |c.result.events| <= RouteLimit
              && c.result.timestamp == responseTime
    ensures c.result.Failed? ==>
              && c.result.Status() == 500
              && c.result.Events() == []
              && c.result.error == FetchFailedError
              && c.result.message == GetUpcomingEvents(s, RouteLimit, requestTime, net).result.message
  {
    var upcoming := GetUpcomingEvents(s, RouteLimit, requestTime, net);
    UpcomingEventsArePrefix(s, RouteLimit, requestTime, net);
    var envelope :=
      match upcoming.result
      case Resolved(events) => Served(events, |events|, responseTime)
      case Rejected(message) => Failed(FetchFailedError, message);
    Call(envelope, upcoming.requests)
  }

  /** Without an API key the route sends nothing and answers 500 with the
      configuration message. */
  lemma GetWithoutKey(s: LumaApiService, requestTime: string, responseTime: string, net: LumaNetwork)
    requires s.apiKey == ""
    ensures Get(s, requestTime, responseTime, net) == Call(Failed(FetchFailedError, MissingKeyMessage), [])
  {
  }
}
