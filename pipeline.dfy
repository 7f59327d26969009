/** The whole pipeline: the page's request to `/api/events` answered by the
    route, and the section state that answer leads to. */
module Pipeline {
  import opened Wrappers
  import opened Http
  import opened Luma
  import LumaApi
  import opened EventsRoute
  import opened CalendarSection

  /** The route's envelope as the page's `fetch` receives it. */
  function Serve(envelope: Envelope): (r: FetchOutcome<Envelope>)
    ensures r.Delivered? && r.reply.json == Parsed(envelope)
    ensures IsOk(r.reply.status) <==> envelope.Success()
  {
    Delivered(Reply(envelope.Status(), "", "", Parsed(envelope)))
  }

  /** The section state after the page loaded once, with the route as its
      server. */
  function PageAfterLoad(s: LumaApiService, requestTime: string, responseTime: string,
                         net: LumaNetwork, parse: LumaApi.DateParser): SectionView
  {
    Settle(FallbackEvents, Serve(Get(s, requestTime, responseTime, net).result), parse)
  }

  /** When the provider call fails for any reason, the route answers 500
      and the page shows the four bundled events with the error notice. */
  lemma ProviderFailureShowsFallback(s: LumaApiService, requestTime: string, responseTime: string,
                                     net: LumaNetwork, parse: LumaApi.DateParser)
    requires GetUpcomingEvents(s, RouteLimit, requestTime, net).result.Rejected?
    ensures Get(s, requestTime, responseTime, net).result.Status() == 500
    ensures PageAfterLoad(s, requestTime, responseTime, net, parse)
            == SectionView(FallbackEvents, false, Some(LoadFailedMessage))
  {
  }

  /** Without an API key nothing reaches the provider and the page shows
      the bundled events with the error notice. */
  lemma MissingKeyShowsFallback(s: LumaApiService, requestTime: string, responseTime: string,
                                net: LumaNetwork, parse: LumaApi.DateParser)
    requires s.apiKey == ""
    ensures Get(s, requestTime, responseTime, net).requests == []
    ensures PageAfterLoad(s, requestTime, responseTime, net, parse)
            == SectionView(FallbackEvents, false, Some(LoadFailedMessage))
  {
  }

  /** When the provider has no upcoming events, the route succeeds with an
      empty list and the page shows the bundled events without a notice. */
  lemma NoUpcomingEventsShowsFallbackQuietly(s: LumaApiService, requestTime: string, responseTime: string,
                                             net: LumaNetwork, parse: LumaApi.DateParser)
    requires GetUpcomingEvents(s, RouteLimit, requestTime, net).result == Resolved([])
    ensures PageAfterLoad(s, requestTime, responseTime, net, parse) == SectionView(FallbackEvents, false, None)
  {
  }

  /** When the provider has upcoming events, the page shows between one
      and four cards, one per event the route passed on, in order. */
  lemma UpcomingEventsReachPage(s: LumaApiService, requestTime: string, responseTime: string,
                                net: LumaNetwork, parse: LumaApi.DateParser)
    requires GetUpcomingEvents(s, RouteLimit, requestTime, net).result.Resolved?
    requires GetUpcomingEvents(s, RouteLimit, requestTime, net).result.value != []
    ensures var view := PageAfterLoad(s, requestTime, responseTime, net, parse);
            var events := GetUpcomingEvents(s, RouteLimit, requestTime, net).result.value;
            && view.error == None
            && view.events == TransformEvents(events, parse)
            && 1 <= |view.events| <= RouteLimit
  {
  }
}
