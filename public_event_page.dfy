/**
 * The public event page: the event looked up by the route id, the
 * referrer carried in the navigation state, the back target, and the
 * fallbacks the page renders for missing fields.
 */
module PublicEventPage {
  import opened Wrappers
  import opened Strings
  import opened Seqs
  import opened MockData

  function HasId(id: string): Event -> bool {
    (e: Event) => e.id == id
  }

  /** `mockEvents.find(e => e.id === id)`. */
  function FindEvent(events: seq<Event>, id: string): Option<Event> {
    Find(events, HasId(id))
  }

  /**
   * The lookup returns the first event carrying the id, and nothing exactly
   * when no event carries it.
   */
  lemma FindEventSpec(events: seq<Event>, id: string)
    ensures FindEvent(events, id).None? <==> forall i :: 0 <= i < |events| ==> events[i].id != id
    ensures FindEvent(events, id).Some? ==>
              exists i :: 0 <= i < |events| && events[i] == FindEvent(events, id).value && events[i].id == id &&
                          forall j :: 0 <= j < i ==> events[j].id != id
  {
  }

  /** When the ids are distinct, the lookup finds exactly the event with that id. */
  lemma FindEventUnique(events: seq<Event>, e: Event)
    requires forall i, j :: 0 <= i < j < |events| ==> events[i].id != events[j].id
    requires e in events
    ensures FindEvent(events, e.id) == Some(e)
  {
    var k :| 0 <= k < |events| && events[k] == e;
    var r := FindEvent(events, e.id);
    assert r.Some?;
    var i :| 0 <= i < |events| && events[i] == r.value && events[i].id == e.id &&
             forall j :: 0 <= j < i ==> events[j].id != e.id;
    assert i == k;
  }

  /** What the route renders. */
  datatype PublicView = NotFound | Details(event: Event)

  function ViewFor(events: seq<Event>, id: string): (v: PublicView)
    ensures v.NotFound? <==> FindEvent(events, id).None?
    ensures v.Details? ==> v.event.id == id
  {
    match FindEvent(events, id)
    case None => NotFound
    case Some(e) => Details(e)
  }

  /**
   * The page once a newly published event joins the events it looks up, under
   * an id none of them had: that id shows the new event, and every other id
   * shows what it showed before.
   */
  lemma ViewAfterPublish(events: seq<Event>, e: Event)
    requires forall i :: 0 <= i < |events| ==> events[i].id != e.id
    ensures ViewFor(events + [e], e.id) == Details(e)
    ensures forall id :: id != e.id ==> ViewFor(events + [e], id) == ViewFor(events, id)
  {
    FindAfterPublish(events, e, e.id);
    forall id | id != e.id ensures ViewFor(events + [e], id) == ViewFor(events, id) {
      FindAfterPublish(events, e, id);
    }
  }

  /** The lookup in the extended events, through the first match of the filter. */
  lemma FindAfterPublish(events: seq<Event>, e: Event, id: string)
    requires forall i :: 0 <= i < |events| ==> events[i].id != e.id
    ensures FindEvent(events + [e], id) == if id == e.id then Some(e) else FindEvent(events, id)
  {
    FindIsFirstOfFilter(events + [e], HasId(id));
    FindIsFirstOfFilter(events, HasId(id));
    FilterConcat(events, [e], HasId(id));
    FilterSingleton(e, HasId(id));
    if id == e.id {
      FilterNone(events, HasId(id));
    }
  }

  /** `state?.from || '/'`: the state's `from` when it is a non-empty string, else `/`. */
  function Referrer(from: Option<string>): (r: string)
    ensures r != ""
    ensures from.Some? && from.value != "" ==> r == from.value
    ensures from.None? || from.value == "" ==> r == "/"
  {
    if from.Some? && from.value != "" then from.value else "/"
  }

  const OrganizerPrefix := "/organizer"

  /** `handleBack`: organizer referrers return to the organizer's event list, any other one is used as it is. */
  function BackTarget(referrer: string): (target: string)
    ensures StartsWith(referrer, OrganizerPrefix) ==> target == "/organizer/events"
    ensures !StartsWith(referrer, OrganizerPrefix) ==> target == referrer
  {
    if StartsWith(referrer, OrganizerPrefix) then "/organizer/events" else referrer
  }

  /** The back target is never empty, and going back from the back target lands in the same place. */
  lemma BackTargetStable(from: Option<string>)
    ensures BackTarget(Referrer(from)) != ""
    ensures BackTarget(BackTarget(Referrer(from))) == BackTarget(Referrer(from))
  {
    assert StartsWith("/organizer/events", OrganizerPrefix);
  }

  /** Opened from any organizer page, the page goes back to the organizer's list. */
  lemma BackFromOrganizer(pathname: string)
    requires StartsWith(pathname, OrganizerPrefix)
    ensures BackTarget(Referrer(Some(pathname))) == "/organizer/events"
  {
  }

  /** `estimatedCredits || 0`. */
  function DisplayedCredits(e: Event): (c: real)
    ensures e.estimatedCredits.None? ==> c == 0.0
    ensures e.estimatedCredits.Some? ==> c == e.estimatedCredits.value
  {
    e.estimatedCredits.GetOr(0.0)
  }

  /** The location card: the place and city, or "Online Event". */
  datatype LocationCard = Place(location: string, city: Option<string>) | OnlineEvent

  function LocationCardFor(e: Event): (card: LocationCard)
    ensures card.OnlineEvent? <==> e.location.None? || e.location.value == ""
    ensures card.Place? ==> Some(card.location) == e.location && card.city == e.city
  {
    if e.location.Some? && e.location.value != "" then Place(e.location.value, e.city) else OnlineEvent
  }

  /** A section shown only for a present, non-empty list. */
  predicate ShowsAgenda(e: Event) {
    e.agenda.Some? && |e.agenda.value| > 0
  }

  predicate ShowsFaculty(e: Event) {
    e.faculty.Some? && |e.faculty.value| > 0
  }

  /** A text shown only when present and non-empty. */
  predicate Present(s: Option<string>) {
    s.Some? && s.value != ""
  }

  predicate ShowsAbout(e: Event) {
    Present(e.description)
  }

  predicate ShowsStreaming(e: Event) {
    Present(e.streamingLink)
  }

  predicate ShowsSubtitle(e: Event) {
    Present(e.subtitle)
  }

  const DefaultAvatar := AvatarBase + "default"

  /** `faculty.avatar || …seed=default`. */
  function FacultyAvatar(m: FacultyMember): (url: string)
    ensures url != ""
    ensures Present(m.avatar) ==> url == m.avatar.value
    ensures !Present(m.avatar) ==> url == DefaultAvatar
  {
    if Present(m.avatar) then m.avatar.value else DefaultAvatar
  }
}
