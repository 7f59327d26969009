/** The events section of the landing page: it turns provider events into
    display cards, keeps four bundled events until a live list arrives, and
    lets each card fall back to a local image when its remote one fails. */
module CalendarSection {
  import opened Wrappers
  import opened Text
  import opened Http
  import opened Luma
  import opened LumaApi
  import opened EventsRoute

  /** What one card shows. */
  datatype DisplayEvent = DisplayEvent(
    id: string,
    title: string,
    date: string,
    image: string,
    subtitle: string,
    lumaUrl: Option<string>)

  /** The bundled events shown until, and unless, live events arrive. */
  const FallbackEvents: seq<DisplayEvent> := [
    DisplayEvent("fallback-1", "Crypto over Tea", "24 July", "/event1.png", "Hearth.", None),
    DisplayEvent("fallback-2", "Crypto over Tea", "21/05", "/event2.png", "Hearth.", None),
    DisplayEvent("fallback-3", "After Dark", "14/05", "/event3.png", "Hearth.", None),
    DisplayEvent("fallback-4", "Sip & Paint", "6/05", "/event4.png", "Night at Hearth.", None)
  ]

  /** The local placeholder pool. */
  const FallbackImages: seq<string> := ["/event1.png", "/event2.png", "/event3.png", "/event4.png"]

  const LiveSubtitle := "Hearth."
  const LocalImagePrefix := "/event"

  /** Whether an optional string is truthy: present and not empty. */
  predicate Truthy(s: Option<string>) {
    s.Some? && s.value != ""
  }

  /** `getLumaEventImage`: the cover when there is one, else the pool
      entry at the position modulo the pool size. */
  function GetLumaEventImage(event: LumaEvent, fallbackIndex: nat): (image: string)
    ensures Truthy(event.coverUrl) ==> image == event.coverUrl.value
    ensures !Truthy(event.coverUrl) ==> image in FallbackImages && StartsWith(image, LocalImagePrefix)
  {
    if Truthy(event.coverUrl) then event.coverUrl.value
    else FallbackImages[fallbackIndex % |FallbackImages|]
  }

  /** Without a cover the image depends on the position alone, and it
      repeats every four positions. */
  lemma PlaceholderDependsOnlyOnPosition(a: LumaEvent, b: LumaEvent, i: nat, j: nat)
    requires !Truthy(a.coverUrl) && !Truthy(b.coverUrl)
    ensures i % 4 == j % 4 ==> GetLumaEventImage(a, i) == GetLumaEventImage(b, j)
    ensures GetLumaEventImage(a, i) == FallbackImages[i % 4]
  {
  }

  /** `transformLumaEvent`: a card for the event at position `index`. */
  function TransformLumaEvent(event: LumaEvent, index: nat, parse: DateParser): (card: DisplayEvent)
    ensures (Truthy(event.coverUrl) && card.image == event.coverUrl.value) || card.image in FallbackImages
  {
    DisplayEvent(
      event.apiId,
      event.name,
      FormatEventDate(event.startAt, parse),
      GetLumaEventImage(event, index),
      LiveSubtitle,
      event.url)
  }

  /** `events.map((e, i) => transformLumaEvent(e, i))`, for the suffix that
      starts at position `start`. */
  function TransformFrom(events: seq<LumaEvent>, start: nat, parse: DateParser): (cards: seq<DisplayEvent>)
    ensures |cards| == |events|
    ensures forall i :: 0 <= i < |events| ==> cards[i] == TransformLumaEvent(events[i], start + i, parse)
    decreases |events|
  {
    if events == [] then []
    else [TransformLumaEvent(events[0], start, parse)] + TransformFrom(events[1..], start + 1, parse)
  }

  /** The normalised list: card i is event i transformed at position i. */
  function TransformEvents(events: seq<LumaEvent>, parse: DateParser): (cards: seq<DisplayEvent>)
    ensures |cards| == |events|
    ensures forall i :: 0 <= i < |events| ==> cards[i] == TransformLumaEvent(events[i], i, parse)
  {
    TransformFrom(events, 0, parse)
  }

  /** Normalising keeps length and order; card i carries the identifier,
      name and link of event i unchanged, its date, the "Hearth." subtitle,
      and either its cover or the placeholder for position i. */
  lemma TransformEventsFields(events: seq<LumaEvent>, parse: DateParser)
    ensures var cards := TransformEvents(events, parse);
            && |cards| == |events|
            && forall i :: 0 <= i < |events| ==>
                 && cards[i].id == events[i].apiId
                 && cards[i].title == events[i].name
                 && cards[i].lumaUrl == events[i].url
                 && cards[i].subtitle == LiveSubtitle
                 && cards[i].date == FormatEventDate(events[i].startAt, parse)
                 && cards[i].image == (if Truthy(events[i].coverUrl) then events[i].coverUrl.value
                                       else FallbackImages[i % 4])
  {
  }

  /** A live list is never taken for the bundled one: every live card has
      the plain subtitle, while the fourth bundled card does not. */
  lemma TransformedDifferFromFallback(events: seq<LumaEvent>, parse: DateParser)
    ensures TransformEvents(events, parse) != FallbackEvents
  {
    var cards := TransformEvents(events, parse);
    if |cards| == 4 {
      assert cards[3].subtitle == LiveSubtitle;
      assert FallbackEvents[3].subtitle != LiveSubtitle;
    }
  }

  /** `parseInt(id.slice(-1)) || 0`: the last character's digit value,
      0 for an empty identifier or a last character that is no digit. */
  function IdFallbackIndex(id: string): (k: nat)
    ensures k < 10
    ensures k != 0 ==> |id| > 0 && IsDigit(id[|id| - 1]) && DigitValue(id[|id| - 1]) == k
    ensures |id| > 0 && IsDigit(id[|id| - 1]) ==> k == DigitValue(id[|id| - 1])
  {
    if |id| > 0 && IsDigit(id[|id| - 1]) then DigitValue(id[|id| - 1]) else 0
  }

  /** The image state of one card. */
  datatype CardImage = CardImage(src: string, imageError: bool)

  /** What `handleImageError` leaves behind: a remote image is replaced by
      the pool entry the identifier picks and the error is cleared; a local
      image stays, with the error flag set. */
  function AfterImageError(src: string, id: string): (r: CardImage)
    ensures StartsWith(r.src, LocalImagePrefix) && r.src in FallbackImages + [src]
    ensures r.imageError <==> StartsWith(src, LocalImagePrefix)
  {
    if !StartsWith(src, LocalImagePrefix) then CardImage(FallbackImages[IdFallbackIndex(id) % |FallbackImages|], false)
    else CardImage(src, true)
  }

  /** After one failure the card always shows a local image; the error
      flag stays up exactly when that image was already local. */
  lemma AfterImageErrorIsLocal(src: string, id: string)
    ensures StartsWith(AfterImageError(src, id).src, LocalImagePrefix)
    ensures AfterImageError(src, id).imageError <==> StartsWith(src, LocalImagePrefix)
    ensures !StartsWith(src, LocalImagePrefix) ==>
              AfterImageError(src, id).src == FallbackImages[IdFallbackIndex(id) % 4]
    ensures StartsWith(src, LocalImagePrefix) ==> AfterImageError(src, id).src == src
  {
  }

  /** A second failure after a swap keeps the swapped image and only sets
      the error flag. */
  lemma ImageErrorSettles(src: string, id: string)
    ensures var once := AfterImageError(src, id);
            AfterImageError(once.src, id) == CardImage(once.src, true)
  {
  }

  /** The bundled cards only use local images, so a failure on one of them
      never swaps the image. */
  lemma FallbackImagesAreLocal()
    ensures |FallbackEvents| == 4
    ensures forall e :: e in FallbackEvents ==> e.image in FallbackImages && StartsWith(e.image, LocalImagePrefix)
  {
  }

  /** One event card and its image state. */
  class EventCard {
    const event: DisplayEvent
    var imageError: bool
    var currentImageSrc: string

    constructor (event: DisplayEvent)
      ensures this.event == event
      ensures !imageError && currentImageSrc == event.image
    {
      this.event := event;
      imageError := false;
      currentImageSrc := event.image;
    }

    /** `handleImageError`. */
    method HandleImageError()
      modifies this
      ensures CardImage(currentImageSrc, imageError) == AfterImageError(old(currentImageSrc), event.id)
    {
      imageError := true;
      if !StartsWith(currentImageSrc, LocalImagePrefix) {
        var fallbackIndex := IdFallbackIndex(event.id);
        currentImageSrc := FallbackImages[fallbackIndex % |FallbackImages|];
        imageError := false;
      }
    }
  }

  const LoadFailedMessage := "Failed to load events"

  /** The fetch from the route failed: no reply, a non-2xx reply, or a body
      that is not JSON. */
  predicate LoadFails(response: FetchOutcome<Envelope>)
    ensures LoadFails(response) <==> !DeliversJson(response)
  {
    response.NetworkError?
    || !IsOk(response.reply.status)
    || response.reply.json.Unparsable?
  }

  /** The route answered 2xx with `success` and at least one event. */
  predicate HasLiveEvents(response: FetchOutcome<Envelope>)
    ensures HasLiveEvents(response) ==> !LoadFails(response)
  {
    DeliversJson(response)
    && response.reply.json.value.Success()
    && |response.reply.json.value.Events()| > 0
  }

  /** The state of the section. */
  datatype SectionView = SectionView(events: seq<DisplayEvent>, loading: bool, error: Option<string>)

  /** The state `fetchEvents` ends in, from the events shown before. */
  function Settle(events: seq<DisplayEvent>, response: FetchOutcome<Envelope>, parse: DateParser): (v: SectionView)
    ensures !v.loading
    ensures v.error == None || v.error == Some(LoadFailedMessage)
    ensures v.events != events ==> HasLiveEvents(response)
    ensures LoadFails(response) ==> v.events == events
  {
    SectionView(
      if HasLiveEvents(response) then TransformEvents(response.reply.json.value.Events(), parse) else events,
      false,
      if LoadFails(response) then Some(LoadFailedMessage) else None)
  }

  /** Starting from the bundled list, the section keeps exactly the bundled
      list unless the route delivered live events; it reports an error
      exactly when the fetch itself failed, and it is never left loading. */
  lemma SettleFromFallback(response: FetchOutcome<Envelope>, parse: DateParser)
    ensures var view := Settle(FallbackEvents, response, parse);
            && (view.events == FallbackEvents <==> !HasLiveEvents(response))
            && (view.error == Some(LoadFailedMessage) <==> LoadFails(response))
            && (view.error == None <==> !LoadFails(response))
            && !view.loading
            && (HasLiveEvents(response) ==> |view.events| == |response.reply.json.value.Events()|)
  {
    if HasLiveEvents(response) {
      TransformedDifferFromFallback(response.reply.json.value.Events(), parse);
    }
  }

  /** The section component's state. */
  class LumaCalendarSection {
    var events: seq<DisplayEvent>
    var loading: bool
    var error: Option<string>

    constructor ()
      ensures events == FallbackEvents && loading && error == None
    {
      events := FallbackEvents;
      loading := true;
      error := None;
    }

    function View(): SectionView
      reads this
    {
      SectionView(events, loading, error)
    }

    /** `fetchEvents`, given what the request to the route gave. */
    method FetchEvents(response: FetchOutcome<Envelope>, parse: DateParser)
      modifies this
      ensures View() == Settle(old(events), response, parse)
    {
      loading := true;
      error := None;
      match response {
        case NetworkError(_) =>
          error := Some(LoadFailedMessage);
        case Delivered(reply) =>
          if !IsOk(reply.status) {
            error := Some(LoadFailedMessage);
          } else {
            match reply.json {
              case Unparsable(_) =>
                error := Some(LoadFailedMessage);
              case Parsed(data) =>
                if data.Success() && |data.Events()| > 0 {
                  events := TransformEvents(data.Events(), parse);
                }
            }
          }
      }
      loading := false;
    }
  }
}
