/**
 * The doctor's event listing: the shared query without a location
 * selector, the sort, and the summary shown above the result.
 */
module EventListing {
  import opened Wrappers
  import opened Strings
  import opened Seqs
  import opened Sorting
  import opened MockData
  import opened EventQuery
  import OrganizerEvents

  /** The sort key the page starts with. */
  const DefaultSortBy := "date-asc"

  /** `filteredEvents`: the four predicates, and no location predicate. */
  function ListingFilter(events: seq<Event>, c: Criteria): seq<Event> {
    Filter(events, CriteriaFilter(c))
  }

  /** `sortedEvents`: the filtered catalog, sorted on a copy. */
  function ListingResult(c: Criteria, sortBy: string): seq<Event> {
    SortEvents(sortBy, ListingFilter(MockEvents, c))
  }

  /** An event is kept iff the four predicates hold; the result is a subsequence of the catalog. */
  lemma ListingFilterSpec(events: seq<Event>, c: Criteria)
    ensures var r := ListingFilter(events, c);
      IsSubsequence(r, events) &&
      forall e :: e in r <==> e in events && MatchesSearch(c.query, e) && MatchesFormat(c.format, e) &&
                              MatchesCouncil(c.council, e) && MatchesSpecialty(c.specialty, e)
  {
    FilterIsSubsequence(events, CriteriaFilter(c));
    var r := ListingFilter(events, c);
    forall e | e in events && CriteriaFilter(c)(e) ensures e in r {
      var i :| 0 <= i < |events| && events[i] == e;
    }
  }

  /** A non-empty query keeps a subsequence of what the empty query keeps. */
  lemma QueryNarrows(events: seq<Event>, c: Criteria)
    ensures IsSubsequence(ListingFilter(events, c), ListingFilter(events, c.(query := "")))
  {
    forall i | 0 <= i < |events| ensures CriteriaFilter(c)(events[i]) ==> CriteriaFilter(c.(query := ""))(events[i]) {
      EmptyQueryMatches(events[i]);
    }
    FilterMono(events, CriteriaFilter(c), CriteriaFilter(c.(query := "")));
  }

  /** Selecting a specific format, council or specialty instead of `All` keeps a subsequence. */
  lemma SelectionNarrows(events: seq<Event>, c: Criteria)
    ensures IsSubsequence(ListingFilter(events, c), ListingFilter(events, c.(format := "All")))
    ensures IsSubsequence(ListingFilter(events, c), ListingFilter(events, c.(council := "All")))
    ensures IsSubsequence(ListingFilter(events, c), ListingFilter(events, c.(specialty := "All")))
  {
    FilterMono(events, CriteriaFilter(c), CriteriaFilter(c.(format := "All")));
    FilterMono(events, CriteriaFilter(c), CriteriaFilter(c.(council := "All")));
    FilterMono(events, CriteriaFilter(c), CriteriaFilter(c.(specialty := "All")));
  }

  /** Two queries with the same lower-case form give the same result. */
  lemma CaseInsensitive(events: seq<Event>, c: Criteria, q1: string, q2: string)
    requires Lower(q1) == Lower(q2)
    ensures ListingFilter(events, c.(query := q1)) == ListingFilter(events, c.(query := q2))
  {
    FilterExt(events, CriteriaFilter(c.(query := q1)), CriteriaFilter(c.(query := q2)));
  }

  /** With location `All`, this page shows what the organizer page shows for the same criteria. */
  lemma SameAsOrganizerPage(c: Criteria, sortBy: string)
    ensures ListingResult(c, sortBy) == OrganizerEvents.SortedResult(c, "All", sortBy)
  {
    FilterExt(MockEvents, CriteriaFilter(c), OrganizerEvents.Keep(c, "All"));
  }

  /** The empty state is shown instead of the list. */
  predicate ShowsEmptyState(result: seq<Event>) {
    |result| == 0
  }

  /** The noun after the count: singular only for exactly one event. */
  function ResultNoun(count: nat): (noun: string)
    ensures noun == "event" <==> count == 1
    ensures noun == "event" || noun == "events"
  {
    if count == 1 then "event" else "events"
  }

  /** With its default criteria the page lists the whole catalog in date order. */
  lemma DefaultListing()
    ensures ListingResult(DefaultCriteria, DefaultSortBy) == SortEvents("date-asc", MockEvents)
  {
    forall i | 0 <= i < |MockEvents| ensures CriteriaFilter(DefaultCriteria)(MockEvents[i]) {
      EmptyQueryMatches(MockEvents[i]);
    }
    FilterAll(MockEvents, CriteriaFilter(DefaultCriteria));
  }
}
