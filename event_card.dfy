/**
 * The event card: which chips and labels it shows for an event, and the
 * share link. A JSX `{x && <Chip/>}` renders nothing when `x` is
 * `undefined`, `false` or the empty string, but renders the number 0 as
 * the text "0".
 */
module EventCard {
  import opened Wrappers
  import opened Strings
  import opened MockData
  import App

  /** The status chip: LIVE and NEW only. */
  datatype StatusChip = LiveChip | NewChip

  function StatusChipFor(e: Event): (chip: Option<StatusChip>)
    ensures chip == Some(LiveChip) <==> e.status == Some(Live)
    ensures chip == Some(NewChip) <==> e.status == Some(New)
    ensures chip.None? <==> e.status.None? || e.status == Some(Pending) || e.status == Some(Closed)
  {
    match e.status
    case Some(Live) => Some(LiveChip)
    case Some(New) => Some(NewChip)
    case _ => None
  }

  /** The place label of the meta row. */
  datatype PlaceLabel = CityLabel(city: string) | OnlineLabel | NoLabel

  function PlaceLabelFor(e: Event): (place: PlaceLabel)
    ensures place.CityLabel? <==> e.city.Some? && e.city.value != ""
    ensures place.CityLabel? ==> e.city == Some(place.city)
    ensures place == OnlineLabel <==> (e.city.None? || e.city.value == "") && e.format == Online
  {
    if e.city.Some? && e.city.value != "" then CityLabel(e.city.value)
    else if e.format == Online then OnlineLabel
    else NoLabel
  }

  /** The venue chip. */
  predicate ShowsVenue(e: Event) {
    e.venue.Some? && e.venue.value != ""
  }

  /** The "seats left" chip: only when two to four seats remain. */
  predicate ShowsSeats(e: Event) {
    e.seatsLeft.Some? && 2 <= e.seatsLeft.value <= 4
  }

  /** The seats chip appears for exactly two, three or four seats left. */
  lemma SeatsChipValues(e: Event)
    ensures ShowsSeats(e) <==> e.seatsLeft == Some(2) || e.seatsLeft == Some(3) || e.seatsLeft == Some(4)
  {
  }

  /** What the credits slot of the card renders. */
  datatype CreditsSlot = NoCredits | StrayText(text: string) | CreditsChip(credits: real)

  /** `{event.estimatedCredits && <Chip/>}` as written: zero credits leave a bare "0" on the card. */
  function CreditsSlotAsWritten(e: Event): CreditsSlot {
    match e.estimatedCredits
    case None => NoCredits
    case Some(c) => if c == 0.0 then StrayText("0") else CreditsChip(c)
  }

  /** An event with zero credits shows no chip but a stray "0". */
  lemma ZeroCreditsLeaveStrayZero(e: Event)
    requires e.estimatedCredits == Some(0.0)
    ensures CreditsSlotAsWritten(e) == StrayText("0")
  {
  }

  /** The evidently intended slot: a chip for non-zero credits, and nothing else ever. */
  function CreditsSlotFor(e: Event): (slot: CreditsSlot)
    ensures !slot.StrayText?
    ensures slot.CreditsChip? <==> e.estimatedCredits.Some? && e.estimatedCredits.value != 0.0
    ensures slot.CreditsChip? ==> Some(slot.credits) == e.estimatedCredits
  {
    if e.estimatedCredits.Some? && e.estimatedCredits.value != 0.0 then CreditsChip(e.estimatedCredits.value)
    else NoCredits
  }

  /** The two agree on every event except those with zero credits. */
  lemma CreditsSlotsAgree(e: Event)
    ensures CreditsSlotAsWritten(e) == CreditsSlotFor(e) <==> e.estimatedCredits != Some(0.0)
  {
  }

  /** `${window.location.origin}/event/${event.id}`. */
  function ShareLink(origin: string, e: Event): string {
    origin + "/event/" + e.id
  }

  /** The shared link's path opens that event's public page, for every id of one path segment. */
  lemma ShareLinkOpensPublicPage(origin: string, e: Event)
    requires App.IsSegment(e.id)
    ensures var link := ShareLink(origin, e);
      link[..|origin|] == origin && App.Route(link[|origin|..]) == App.PublicEvent(e.id)
  {
    var link := ShareLink(origin, e);
    assert link[|origin|..] == "/event/" + e.id;
    App.PublicRouteRoundTrip(e.id);
  }
}
