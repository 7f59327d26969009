/** The library variant of the provider client: it reads either the public
    or the server environment variables, swallows every failure of the
    list-events call into an empty list, probes two user endpoints to test
    the connection, and formats event dates for display. */
module LumaApi {
  import opened Wrappers
  import opened Text
  import opened Http
  import opened Luma

  datatype LumaApiService = LumaApiService(apiKey: string, calendarId: string)

  /** The constructor: each setting is the first non-empty of its public
      and its server variable, else `''` for the key and the default
      calendar for the calendar. */
  function NewLumaApiService(env: Env): (s: LumaApiService)
    ensures EnvValue(env, "NEXT_PUBLIC_LUMA_API_KEY") != "" ==> s.apiKey == EnvValue(env, "NEXT_PUBLIC_LUMA_API_KEY")
    ensures EnvValue(env, "NEXT_PUBLIC_LUMA_API_KEY") == "" ==> s.apiKey == EnvValue(env, "LUMA_API_KEY")
    ensures EnvValue(env, "NEXT_PUBLIC_LUMA_CALENDAR_ID") != "" ==> s.calendarId == EnvValue(env, "NEXT_PUBLIC_LUMA_CALENDAR_ID")
    ensures EnvValue(env, "NEXT_PUBLIC_LUMA_CALENDAR_ID") == "" && EnvValue(env, "LUMA_CALENDAR_ID") != ""
            ==> s.calendarId == EnvValue(env, "LUMA_CALENDAR_ID")
    ensures EnvValue(env, "NEXT_PUBLIC_LUMA_CALENDAR_ID") == "" && EnvValue(env, "LUMA_CALENDAR_ID") == ""
            ==> s.calendarId == DefaultCalendarId
    ensures s.calendarId != ""
  {
    LumaApiService(
      Or(Or(EnvValue(env, "NEXT_PUBLIC_LUMA_API_KEY"), EnvValue(env, "LUMA_API_KEY")), ""),
      Or(Or(EnvValue(env, "NEXT_PUBLIC_LUMA_CALENDAR_ID"), EnvValue(env, "LUMA_CALENDAR_ID")), DefaultCalendarId))
  }

  /** The message thrown for a non-2xx reply: the status in parentheses,
      then the reply's body text. */
  function ApiErrorMessage<T>(reply: Reply<T>): (m: string)
    ensures StartsWith(m, "Luma API error (")
    ensures |m| >= 19 + |NatToString(reply.status)|
    ensures m[16..16 + |NatToString(reply.status)|] == NatToString(reply.status)
    ensures m[16 + |NatToString(reply.status)|..19 + |NatToString(reply.status)|] == "): "
    ensures m[19 + |NatToString(reply.status)|..] == reply.bodyText
  {
    "Luma API error (" + NatToString(reply.status) + "): " + reply.bodyText
  }

  /** `makeRequest`: no request without an API key; otherwise one request,
      and only a 2xx reply whose body decodes resolves. */
  function MakeRequest(s: LumaApiService, endpoint: string, query: Pairs, net: LumaNetwork)
    : (c: Call<Settled<LumaBody>>)
    ensures s.apiKey == "" ==> c == Call(Rejected(MissingKeyMessage), [])
    ensures s.apiKey != "" ==> c.requests == [LumaRequest(s.apiKey, endpoint, query)]
    ensures c.result.Resolved? <==> s.apiKey != "" && DeliversJson(net(LumaRequest(s.apiKey, endpoint, query)))
    ensures c.result.Resolved? ==> c.result.value == net(LumaRequest(s.apiKey, endpoint, query)).reply.json.value
    ensures s.apiKey != "" && net(LumaRequest(s.apiKey, endpoint, query)).Delivered?
            && !IsOk(net(LumaRequest(s.apiKey, endpoint, query)).reply.status)
            ==> c.result == Rejected(ApiErrorMessage(net(LumaRequest(s.apiKey, endpoint, query)).reply))
    ensures s.apiKey != "" && net(LumaRequest(s.apiKey, endpoint, query)).NetworkError?
            ==> c.result == Rejected(net(LumaRequest(s.apiKey, endpoint, query)).message)
    ensures s.apiKey != "" && net(LumaRequest(s.apiKey, endpoint, query)).Delivered?
            && IsOk(net(LumaRequest(s.apiKey, endpoint, query)).reply.status)
            && net(LumaRequest(s.apiKey, endpoint, query)).reply.json.Unparsable?
            ==> c.result == Rejected(net(LumaRequest(s.apiKey, endpoint, query)).reply.json.message)
  {
    if s.apiKey == "" then Call(Rejected(MissingKeyMessage), [])
    else
      var request := LumaRequest(s.apiKey, endpoint, query);
      var settled :=
        match net(request)
        case NetworkError(message) => Rejected(message)
        case Delivered(reply) =>
          if !IsOk(reply.status) then Rejected(ApiErrorMessage(reply))
          else
            match reply.json
            case Unparsable(message) => Rejected(message)
            case Parsed(body) => Resolved(body);
      Call(settled, [request])
  }

  /** The query of the list-events request: calendar and limit only. */
  function UpcomingQuery(calendarId: string, limit: int): (q: Pairs)
    ensures Lookup(q, "calendar_id") == Some(calendarId)
    ensures Lookup(q, "limit") == Some(IntToString(limit))
    ensures Lookup(q, "after") == None
  {
    var q := [("calendar_id", calendarId), ("limit", IntToString(limit))];
    assert "calendar_id"[0] != "after"[0] && "limit"[0] != "after"[0] && "calendar_id"[0] != "limit"[0];
    assert Lookup(q[1..], "after") == Lookup(q[1..][1..], "after") == None;
    q
  }

  /** `getUpcomingEvents(limit)`: never throws. Without a calendar nothing
      is sent; otherwise every unwrapped entry of a reply with entries is
      returned (no cut to `limit`), and a reply without entries or any
      error gives the empty list. */
  function GetUpcomingEvents(s: LumaApiService, limit: int, net: LumaNetwork): (c: Call<seq<LumaEvent>>)
    ensures s.calendarId == "" ==> c == Call([], [])
    ensures s.calendarId != "" ==> c.requests == MakeRequest(s, ListEventsEndpoint, UpcomingQuery(s.calendarId, limit), net).requests
    ensures c.result != [] ==>
              && s.calendarId != ""
              && var response := MakeRequest(s, ListEventsEndpoint, UpcomingQuery(s.calendarId, limit), net).result;
                 response.Resolved? && response.value.WithEntries? && |c.result| == |response.value.entries|
  {
    if s.calendarId == "" then Call([], [])
    else
      var response := MakeRequest(s, ListEventsEndpoint, UpcomingQuery(s.calendarId, limit), net);
      var events :=
        match response.result
        case Resolved(WithEntries(entries)) => Unwrap(entries)
        case Resolved(WithoutEntries) => []
        case Rejected(_) => [];
      Call(events, response.requests)
  }

  /** Every failure of the request, and a reply without entries, end in the
      empty list; a reply with entries gives all of them, unwrapped, in
      order, whatever the limit. */
  lemma UpcomingEventsSwallowErrors(s: LumaApiService, limit: int, net: LumaNetwork)
    requires s.calendarId != ""
    ensures var response := MakeRequest(s, ListEventsEndpoint, UpcomingQuery(s.calendarId, limit), net).result;
            var events := GetUpcomingEvents(s, limit, net).result;
            && (response.Rejected? ==> events == [])
            && (response == Resolved(WithoutEntries) ==> events == [])
            && (response.Resolved? && response.value.WithEntries? ==>
                  |events| == |response.value.entries|
                  && forall i :: 0 <= i < |events| ==> events[i] == response.value.entries[i].event)
  {
  }

  /** A service built by the constructor always has a calendar, so the
      empty-calendar branch of `getUpcomingEvents` is never taken for it:
      with a key, exactly one request is sent. */
  lemma ConstructedServiceAlwaysRequests(env: Env, limit: int, net: LumaNetwork)
    requires NewLumaApiService(env).apiKey != ""
    ensures |GetUpcomingEvents(NewLumaApiService(env), limit, net).requests| == 1
  {
  }

  const UserEndpoint := "/public/v1/user/get-self"
  const AlternativeUserEndpoint := "/v1/user/get-self"

  /** `testConnection`: true when either user endpoint answers; the
      alternative is asked only after the first has failed. */
  function TestConnection(s: LumaApiService, net: LumaNetwork): (c: Call<bool>)
    ensures c.result <==> MakeRequest(s, UserEndpoint, [], net).result.Resolved?
                          || MakeRequest(s, AlternativeUserEndpoint, [], net).result.Resolved?
    ensures MakeRequest(s, UserEndpoint, [], net).result.Resolved? ==> c.requests == MakeRequest(s, UserEndpoint, [], net).requests
    ensures MakeRequest(s, UserEndpoint, [], net).result.Rejected? ==>
              c.requests == MakeRequest(s, UserEndpoint, [], net).requests + MakeRequest(s, AlternativeUserEndpoint, [], net).requests
  {
    var first := MakeRequest(s, UserEndpoint, [], net);
    if first.result.Resolved? then Call(true, first.requests)
    else
      var second := MakeRequest(s, AlternativeUserEndpoint, [], net);
      Call(second.result.Resolved?, first.requests + second.requests)
  }

  /** Without a key the test fails at once, sending nothing; with one it
      sends the first probe first and at most two probes in all. */
  lemma TestConnectionRequests(s: LumaApiService, net: LumaNetwork)
    ensures s.apiKey == "" ==> TestConnection(s, net) == Call(false, [])
    ensures s.apiKey != "" ==>
              var requests := TestConnection(s, net).requests;
              && 1 <= |requests| <= 2
              && requests[0].url == BaseUrl + UserEndpoint
              && (|requests| == 2 <==> !DeliversJson(net(LumaRequest(s.apiKey, UserEndpoint, []))))
              && (|requests| == 2 ==> requests[1].url == BaseUrl + AlternativeUserEndpoint)
  {
  }

  type Month = m: int | 1 <= m <= 12 witness 1
  type Day = d: int | 1 <= d <= 31 witness 1

  /** A date as the browser's local calendar sees it. */
  datatype CalendarDay = CalendarDay(month: Month, day: Day)

  /** `new Date(text)` read in the local time zone: no day for text that
      is not a valid date. */
  type DateParser = string -> Option<CalendarDay>

  /** The short month names of the `en-US` locale. */
  const ShortMonths: seq<string> :=
    ["Jan", "Feb", "Mar", "Apr", "May", "Jun", "Jul", "Aug", "Sep", "Oct", "Nov", "Dec"]

  function ShortMonth(m: Month): (name: string)
    ensures |name| == 3 && name in ShortMonths
  {
    ShortMonths[m - 1]
  }

  const InvalidDate := "TBD"

  /** `formatEventDate`: "TBD" for an invalid date, else the short month
      name and the day number, as in "Aug 2". */
  function FormatEventDate(dateString: string, parse: DateParser): (r: string)
    ensures r == InvalidDate <==> parse(dateString).None?
    ensures parse(dateString).Some? ==> |r| >= 5 && r[3] == ' ' && r[..3] in ShortMonths
  {
    match parse(dateString)
    case None => InvalidDate
    case Some(day) =>
      var r := ShortMonth(day.month) + " " + NatToString(day.day);
      assert r[..3] == ShortMonth(day.month);
      r
  }

  /** "TBD" is produced for exactly the invalid dates; a valid date gives a
      three-letter month, one space and the day without a leading zero. */
  lemma FormatEventDateShape(dateString: string, parse: DateParser)
    ensures FormatEventDate(dateString, parse) == InvalidDate <==> parse(dateString).None?
    ensures parse(dateString).Some? ==>
              var r := FormatEventDate(dateString, parse);
              && |r| >= 5
              && r[..3] == ShortMonth(parse(dateString).value.month)
              && r[3] == ' '
              && r[4..] == NatToString(parse(dateString).value.day)
              && AllDigits(r[4..]) && r[4] != '0'
  {
  }

  /** Distinct valid dates are formatted as distinct texts. */
  lemma FormatEventDateInjective(a: string, b: string, parse: DateParser)
    requires parse(a).Some? && parse(b).Some?
    ensures FormatEventDate(a, parse) == FormatEventDate(b, parse) ==> parse(a) == parse(b)
  {
    var x, y := parse(a).value, parse(b).value;
    if FormatEventDate(a, parse) == FormatEventDate(b, parse) {
      FormatEventDateShape(a, parse);
      FormatEventDateShape(b, parse);
      ShortMonthInjective(x.month, y.month);
      NatToStringInjective(x.day, y.day);
    }
  }

  lemma ShortMonthInjective(m: Month, n: Month)
    ensures ShortMonth(m) == ShortMonth(n) ==> m == n
  {
  }

  /** The day "2025-07-24T10:00:00Z" falls on in a time zone where it is
      still the 24th renders as "Jul 24". */
  lemma FormatEventDateExample(parse: DateParser)
    requires parse("2025-07-24T10:00:00Z") == Some(CalendarDay(7, 24))
    ensures FormatEventDate("2025-07-24T10:00:00Z", parse) == "Jul 24"
  {
  }
}
