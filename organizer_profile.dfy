/**
 * The organizer profile: the events of the three organizer names, the
 * four stats, and the per-event history row.
 *
 * `new Date()` is the parameter `now`: a UTC day in ISO form and whether
 * any time has passed since its midnight. An ISO event date denotes the
 * UTC midnight of that day, so comparing instants reduces to comparing
 * the ISO strings, whose lexicographic order is chronological.
 */
module OrganizerProfile {
  import opened Wrappers
  import opened Strings
  import opened Seqs
  import opened MockData

  /** The names the profile treats as the current organizer's. */
  const OrganizerNames: seq<string> := ["Dr. Rajesh Kumar", "Dr. Priya Singh", "Dr. Suresh Menon"]

  predicate IsOwnEvent(e: Event) {
    e.organizer.name in OrganizerNames
  }

  function OwnEvent(): Event -> bool {
    (e: Event) => IsOwnEvent(e)
  }

  /** `organizerEvents`. */
  function OrganizerEventsOf(events: seq<Event>): seq<Event> {
    Filter(events, OwnEvent())
  }

  /** The profile lists exactly the events of the three names, in catalog order. */
  lemma OrganizerEventsSpec(events: seq<Event>)
    ensures IsSubsequence(OrganizerEventsOf(events), events)
    ensures forall e :: e in OrganizerEventsOf(events) <==> e in events && e.organizer.name in OrganizerNames
  {
    FilterIsSubsequence(events, OwnEvent());
    forall e | e in events && IsOwnEvent(e) ensures e in OrganizerEventsOf(events) {
      var i :| 0 <= i < |events| && events[i] == e;
    }
  }

  /** The instant `new Date()` reads. */
  datatype Now = Now(day: string, pastMidnight: bool)

  /** `new Date(e.date) > now`: the event's midnight is later than now. */
  predicate IsUpcoming(e: Event, now: Now) {
    LexLess(now.day, e.date)
  }

  /** `new Date(e.date) < now`. */
  predicate IsPast(e: Event, now: Now) {
    LexLess(e.date, now.day) || (e.date == now.day && now.pastMidnight)
  }

  /** No event is both; exactly at an event's midnight it is neither. */
  lemma PastExcludesUpcoming(e: Event, now: Now)
    ensures !(IsPast(e, now) && IsUpcoming(e, now))
    ensures e.date == now.day && !now.pastMidnight ==> !IsPast(e, now) && !IsUpcoming(e, now)
    ensures IsPast(e, now) || IsUpcoming(e, now) || e.date == now.day
  {
    LexLessIrreflexive(e.date);
    LexLessTotal(e.date, now.day);
    if LexLess(e.date, now.day) {
      LexLessAsymmetric(e.date, now.day);
    }
  }

  /** `150 - (e.seatsLeft || 0)`. */
  function AttendeeCount(e: Event): (n: int)
    ensures e.seatsLeft.None? ==> n == 150
    ensures e.seatsLeft.Some? ==> n + e.seatsLeft.value == 150
  {
    150 - e.seatsLeft.GetOr(0)
  }

  function Attendees(): Event -> int {
    (e: Event) => AttendeeCount(e)
  }

  function Credits(): Event -> real {
    (e: Event) => e.estimatedCredits.GetOr(0.0)
  }

  function Upcoming(now: Now): Event -> bool {
    (e: Event) => IsUpcoming(e, now)
  }

  datatype Stats = Stats(totalEvents: nat, totalAttendees: int, totalCreditsIssued: real, upcomingEvents: nat)

  /** `stats` over the organizer's events. */
  function StatsOf(events: seq<Event>, now: Now): Stats {
    var own := OrganizerEventsOf(events);
    Stats(|own|, SumInt(own, Attendees()), SumReal(own, Credits()), |Filter(own, Upcoming(now))|)
  }

  /**
   * At most every listed event is upcoming, at most 150 attendees come to
   * each event that reports its seats as non-negative, and the credits
   * issued are not negative when no event reports negative credits.
   */
  lemma StatsBounds(events: seq<Event>, now: Now)
    requires forall i :: 0 <= i < |events| ==> events[i].seatsLeft.GetOr(0) >= 0
    requires forall i :: 0 <= i < |events| ==> events[i].estimatedCredits.GetOr(0.0) >= 0.0
    ensures var s := StatsOf(events, now);
      s.upcomingEvents <= s.totalEvents <= |events| &&
      s.totalAttendees <= 150 * s.totalEvents &&
      s.totalCreditsIssued >= 0.0
  {
    var own := OrganizerEventsOf(events);
    forall i | 0 <= i < |own| ensures Attendees()(own[i]) <= 150 && Credits()(own[i]) >= 0.0 {
      assert own[i] in events;
    }
    SumIntBound(own, Attendees(), 150);
    SumRealFromNonNegative(own, Credits(), 0);
  }

  /** The history row's count: attendees for a past event, the seats left otherwise. */
  datatype Occupancy = AttendeesCount(attendees: int) | SeatsLeftCount(seatsLeft: Option<int>)

  function OccupancyFor(e: Event, now: Now): (o: Occupancy)
    ensures o.AttendeesCount? <==> IsPast(e, now)
    ensures o.AttendeesCount? ==> o.attendees == AttendeeCount(e)
    ensures o.SeatsLeftCount? ==> o.seatsLeft == e.seatsLeft
  {
    if IsPast(e, now) then AttendeesCount(AttendeeCount(e)) else SeatsLeftCount(e.seatsLeft)
  }

  /** The status chip's variant: `live`, `new`, or the neutral badge for the other statuses. */
  datatype ChipVariant = LiveVariant | NewVariant | BadgeVariant

  function StatusChip(e: Event): (chip: Option<ChipVariant>)
    ensures chip.None? <==> e.status.None?
    ensures chip == Some(LiveVariant) <==> e.status == Some(Live)
    ensures chip == Some(NewVariant) <==> e.status == Some(New)
  {
    match e.status
    case None => None
    case Some(Live) => Some(LiveVariant)
    case Some(New) => Some(NewVariant)
    case Some(_) => Some(BadgeVariant)
  }

  /** The venue line appears only for a non-empty venue. */
  predicate ShowsVenue(e: Event) {
    e.venue.Some? && e.venue.value != ""
  }
}
