# Hearth landing page: the events pipeline

The Hearth landing page shows upcoming events from the Luma calendar
provider. This project models that pipeline in Dafny and proves what it
promises. The pipeline has three parts:

- **The server route** `GET /api/events` (`app/api/events/route.ts`). A
  provider client is built once from the environment. It refuses to call
  out without an API key, turns a non-2xx reply into an error, unwraps
  `entries[i].event`, and cuts the list to four. The route wraps the result
  in a `{success, events, count, timestamp}` envelope, or answers 500 with
  `{success: false, error, message, events: []}`.
- **The library client** (`lib/luma-api.ts`). It has the same key guard and
  unwrapping, but swallows every failure into an empty list. It tests the
  connection by trying two user endpoints in turn, and formats dates as
  "Aug 2", or "TBD" for an invalid date.
- **The events section** (`app/components/LumaCalendarSection.tsx`).
  - It normalises provider events into cards. The image is the cover, or
    the placeholder at the card's position modulo 4.
  - It shows the four bundled events unless the route delivers a
    non-empty successful list.
  - It reports "Failed to load events" when the fetch itself fails.
  - When a remote image fails, the card swaps it for the placeholder picked
    by the identifier's last digit modulo 4.

The network, `new Date()` and environment variables are inputs of the model.
- A network is a function from a `Request` to a `FetchOutcome`: either a
  reply (status, status text, body text, decoded JSON or a decoding
  error) or a network error.
- Every client operation returns a `Call`: its result plus the requests it
  sent, in order. So "sends nothing without a key" and "asks the second
  endpoint only after the first failed" are statements about that list.
- An `async` function that throws becomes `Rejected(message)`.
- Date parsing becomes a `DateParser`: a function from text to an optional
  month and day.

Modules: `Wrappers` (Option), `Text` (decimal rendering of numbers), `Http`
(requests, replies, environment), `Luma` (provider records and request
shape), `EventsRoute`, `LumaApi`, `CalendarSection`, and `Pipeline` (the
route and the page together).

The code keeps two placeholder rules, and so does the model: by position
when normalising, and by the identifier's last character on an image error.
A card's link is the provider's `url` as given, absent when the provider
gives none.

## Model

| member | source | states |
|---|---|---|
| `Text.NatToString` | app/api/events/route.ts:59 | a status renders as non-empty decimal digits with a leading zero only for 0 (and reads back to the same number, `NatToStringRoundTrip`) |
| `Text.IntToString` | app/api/events/route.ts:71 | `limit.toString()` is non-empty and starts with '-' exactly for negative limits |
| `Text.IntToStringDenotes` | app/api/events/route.ts:71 | the text of `limit` denotes `limit`: its digits (after the minus sign of a negative limit) read back to the limit's magnitude |
| `Luma.LumaRequest` | app/api/events/route.ts:47-55 | every provider request goes to the provider base URL with the `x-luma-api-key` header set to the key and a JSON content type |
| `Luma.Unwrap` | app/api/events/route.ts:78 | `entries.map(e => e.event)` (also lib/luma-api.ts:128) has the same length and order, element i being entry i's event |
| `EventsRoute.NewLumaApiService` | app/api/events/route.ts:29-33 | the key is `LUMA_API_KEY` or ''; the calendar is `LUMA_CALENDAR_ID` unless unset or empty, then 'hearthgatherings'; the calendar is never empty |
| `EventsRoute.RequestFailedMessage` | app/api/events/route.ts:57-60 | the non-ok error message is the failure prefix, the status code, one space and the status text |
| `EventsRoute.MakeRequest` | app/api/events/route.ts:42-64 | without a key: rejects with 'Luma API key is not configured' and sends nothing; otherwise exactly one request; resolves iff the reply is 2xx and its JSON decodes; a non-2xx reply rejects with the status message; a failed fetch or undecodable body rejects with that error's own message |
| `EventsRoute.UpcomingQuery` | app/api/events/route.ts:68-75 | the query carries `calendar_id`, `limit` and `after` with the calendar, the limit's text and the current time |
| `EventsRoute.SliceEnd` | app/api/events/route.ts:80 | `slice(0, limit)` stops within the list, at `limit` or at the end for a non-negative limit, counting back from the end for a negative one |
| `EventsRoute.GetUpcomingEvents` | app/api/events/route.ts:66-91 | sends what `makeRequest` sends; rejects exactly when `makeRequest` rejects, with the same message (re-thrown, not swallowed) |
| `EventsRoute.UpcomingEventsArePrefix` | app/api/events/route.ts:77-86 | for limit >= 0 a resolved list has at most `limit` events, is the prefix of length min(limit, n) of the unwrapped entries, and is empty for a body without entries |
| `EventsRoute.UpcomingRequestShape` | app/api/events/route.ts:68-75 | every request sent asks the list-events endpoint with the key header, the calendar, the limit and `after` |
| `EventsRoute.Get` | app/api/events/route.ts:97-121 | success iff the events call resolved; then the events are that list with `count == length <= 4` and the response time; otherwise status 500, no events, 'Failed to fetch events' and the thrown message |
| `EventsRoute.GetWithoutKey` | app/api/events/route.ts:42-45 | without a key the route sends no request and answers the failure envelope with the configuration message |
| `LumaApi.NewLumaApiService` | lib/luma-api.ts:53-66 | key = first non-empty of `NEXT_PUBLIC_LUMA_API_KEY`, `LUMA_API_KEY`, else ''; calendar = first non-empty of the two calendar variables, else 'hearthgatherings'; the calendar is never empty |
| `LumaApi.ApiErrorMessage` | lib/luma-api.ts:87-90 | the non-ok error message is 'Luma API error (', the status code, '): ' and the reply's body text |
| `LumaApi.MakeRequest` | lib/luma-api.ts:68-97 | without a key: rejects and sends nothing; otherwise one request; resolves iff 2xx and decodable; a non-2xx reply rejects with the status and body text; a failed fetch or undecodable body is rethrown with its own message |
| `LumaApi.UpcomingQuery` | lib/luma-api.ts:113-116 | the query carries the calendar and the limit and no `after` |
| `LumaApi.GetUpcomingEvents` | lib/luma-api.ts:103-144 | an empty calendar gives [] and sends nothing; otherwise it sends what `makeRequest` sends; a non-empty result only comes from a resolved reply with entries, one event per entry |
| `LumaApi.UpcomingEventsSwallowErrors` | lib/luma-api.ts:124-143 | every request error and a body without entries give []; a body with entries gives all of them unwrapped, in order, not cut to `limit` |
| `LumaApi.ConstructedServiceAlwaysRequests` | lib/luma-api.ts:105-108 | for a service built by the constructor with a key, the empty-calendar branch is never taken: exactly one request is sent |
| `LumaApi.TestConnection` | lib/luma-api.ts:149-163 | true iff the first or the alternative user endpoint resolves; the alternative is requested only after the first rejects |
| `LumaApi.TestConnectionRequests` | lib/luma-api.ts:149-163 | without a key: false with no request; with one, the first probe goes first, and a second probe (to the alternative endpoint) is sent exactly when the first reply is not a decodable 2xx |
| `LumaApi.ShortMonth` | lib/luma-api.ts:180-184 | en-US short month names are three letters long |
| `LumaApi.FormatEventDate` | lib/luma-api.ts:170-189 | the result is "TBD" iff the date is invalid; a valid date gives a short month name, a space and more |
| `LumaApi.FormatEventDateShape` | lib/luma-api.ts:170-189 | the result is exactly "TBD" iff the date is invalid; a valid date gives month name, one space, and the day in digits without a leading zero |
| `LumaApi.FormatEventDateInjective` | lib/luma-api.ts:180-184 | distinct valid days format to distinct texts |
| `LumaApi.FormatEventDateExample` | lib/luma-api.ts:180-184 | a date read as July 24 formats as "Jul 24" |
| `CalendarSection.GetLumaEventImage` | app/components/LumaCalendarSection.tsx:67-75 | a truthy cover is returned unchanged; otherwise the result is a local pool image |
| `CalendarSection.PlaceholderDependsOnlyOnPosition` | app/components/LumaCalendarSection.tsx:64-75 | without a cover the image is `fallbackImages[index % 4]`, whatever the event, so positions equal modulo 4 get the same image |
| `CalendarSection.TransformLumaEvent` | app/components/LumaCalendarSection.tsx:78-87 | a card's image is the event's truthy cover or a pool image |
| `CalendarSection.TransformFrom` | app/components/LumaCalendarSection.tsx:169-171 | the indexed `map` gives one card per event, in order, card i built from event i at position start + i |
| `CalendarSection.TransformEvents` | app/components/LumaCalendarSection.tsx:169-171 | the normalised list has one card per event, card i being event i transformed at position i |
| `CalendarSection.TransformEventsFields` | app/components/LumaCalendarSection.tsx:78-87 | card i copies `api_id`, `name` and `url` of event i, has subtitle "Hearth.", its formatted date, and the cover or placeholder i % 4 |
| `CalendarSection.TransformedDifferFromFallback` | app/components/LumaCalendarSection.tsx:32-61 | no normalised list equals the bundled list (the fourth bundled card has another subtitle) |
| `CalendarSection.IdFallbackIndex` | app/components/LumaCalendarSection.tsx:102 | the `parseInt` of the last character, or 0: the last character's digit value when it is a digit, else 0 |
| `CalendarSection.AfterImageError` | app/components/LumaCalendarSection.tsx:97-107 | after an image error the src is local and either a pool image or the old src; the error flag is set iff the old src was local |
| `CalendarSection.AfterImageErrorIsLocal` | app/components/LumaCalendarSection.tsx:97-107 | after an image error the src always starts with '/event'; a remote src becomes `fallbackImages[idDigit % 4]` with the flag cleared, a local src stays with the flag set |
| `CalendarSection.ImageErrorSettles` | app/components/LumaCalendarSection.tsx:97-107 | a second image error after a swap keeps the swapped src and only sets the flag |
| `CalendarSection.FallbackImagesAreLocal` | app/components/LumaCalendarSection.tsx:32-64 | there are four bundled events and each uses a local pool image |
| `CalendarSection.EventCard.constructor` | app/components/LumaCalendarSection.tsx:94-95 | a card starts without an error, showing the event's image |
| `CalendarSection.EventCard.HandleImageError` | app/components/LumaCalendarSection.tsx:97-107 | the new src and error flag are those of `AfterImageError` on the old src and the card's id |
| `CalendarSection.LoadFails` | app/components/LumaCalendarSection.tsx:159-165 | the fetch fails exactly when the reply is missing, not 2xx, or not decodable JSON |
| `CalendarSection.HasLiveEvents` | app/components/LumaCalendarSection.tsx:167 | live events (`success` and a non-empty list) only come with a fetch that did not fail |
| `CalendarSection.Settle` | app/components/LumaCalendarSection.tsx:150-187 | after `fetchEvents` loading is false, the error is null or 'Failed to load events', the events change only for live events, and a failed fetch keeps them |
| `CalendarSection.SettleFromFallback` | app/components/LumaCalendarSection.tsx:150-187 | from the bundled list, the events stay the bundled list iff no live non-empty successful list arrived; the error is 'Failed to load events' iff the fetch failed (network, non-2xx, bad JSON), else null; loading ends false |
| `CalendarSection.LumaCalendarSection.constructor` | app/components/LumaCalendarSection.tsx:140-142 | the section starts with the bundled events, loading, and no error |
| `CalendarSection.LumaCalendarSection.FetchEvents` | app/components/LumaCalendarSection.tsx:151-187 | the new events, loading flag and error are those of `Settle` on the old events and the route's answer |
| `Pipeline.Serve` | app/api/events/route.ts:102-119 | the route's answer reaches the page as a reply whose JSON is the envelope, 2xx iff `success` |
| `Pipeline.ProviderFailureShowsFallback` | app/api/events/route.ts:108-119 | when the provider call fails the route answers 500 and the page shows the four bundled events with the error notice |
| `Pipeline.MissingKeyShowsFallback` | app/api/events/route.ts:42-45 | without a key nothing is sent and the page shows the bundled events with the error notice |
| `Pipeline.NoUpcomingEventsShowsFallbackQuietly` | app/components/LumaCalendarSection.tsx:176-179 | an empty provider list leaves the bundled events and no error notice |
| `Pipeline.UpcomingEventsReachPage` | app/components/LumaCalendarSection.tsx:167-175 | a non-empty provider list reaches the page as one to four normalised cards, in order, without an error |

## Left out

- The actual `fetch`, `response.json()`, `response.text()`, `NextResponse`
  and `process.env` are inputs: a network function, decoded-or-not JSON
  bodies, and an environment map. `response.text()` never fails in the model.
- `new Date()`, `Date` parsing, time zones and `toLocaleDateString` are
  inputs. The request time and the response time are given strings, and
  parsing is a `DateParser` that yields a month and a day or nothing. The
  en-US "short month, numeric day" output is written out.
- `formatEventDateShort` (lib/luma-api.ts:192-205) is not part of this
  model. Its output depends entirely on the Intl locale data, and the
  pipeline does not use it.
- Provider fields the pipeline never reads (`end_at`, `description`,
  `timezone`, geo data, entry `api_id` and `tags`, `has_more`,
  `next_cursor`) are not modelled.
- Query strings are kept as ordered key/value pairs. `URLSearchParams`
  percent-encoding is not modelled.
- The `options` argument of the library's `makeRequest` is always the
  default, so it is not modelled.
- The route's `'Unknown error'` message for a thrown non-Error value is not
  modelled: every rejection in the model carries an Error message.
- `limit` is an integer. Fractional and non-finite numbers are not modelled.
- Text.IntToString: JavaScript prints integers of magnitude 10^21 and more
  in exponent form (`"1e+21"`); the model prints every digit. The code only
  ever passes 4 as the limit.
- The default `limit = 10` of both `getUpcomingEvents` (app/api/events/route.ts:66,
  lib/luma-api.ts:103) is not modelled: every call in the model passes a
  limit, as the route does with 4.
- Decoded provider bodies follow the declared response types: `entries`,
  when present and truthy, is a list whose elements each carry an `event`.
  A body whose `entries` is some other truthy value is not modelled; in the
  code `.map` then throws, so the route answers 500 and the library returns
  an empty list. An entry without `event` is not modelled either: the route
  passes it on as `undefined`, and the library's log statement
  (lib/luma-api.ts:131) throws on it, so the library returns an empty list.
- The envelope travels from the route to the page unchanged: JSON
  serialisation of the events is taken to be lossless.
- React rendering, effects and state batching are not modelled. Each
  handler runs to completion on the state it reads. GSAP animation,
  layout, styling, the other page sections, the debug route, the
  development scripts and all `console` logging are not part of this model.
