/**
 * The organizer's discovery page: the shared query plus a location
 * selector, the `discover` / `create` tab chosen by the path, the tab
 * handlers and the event click. Navigation is returned as the target path;
 * the two-second loading delay and the scroll are not modelled.
 */
module OrganizerEvents {
  import opened Wrappers
  import opened Seqs
  import opened Sorting
  import opened MockData
  import opened EventQuery

  const CreatePath := "/organizer/create"
  const EventsPath := "/organizer/events"

  /** `All`, the event's city, or `Online` for an event whose format is online. */
  predicate MatchesLocation(selected: string, e: Event) {
    selected == "All" || e.city == Some(selected) || (selected == "Online" && e.format == Online)
  }

  /** The five predicates of the page's `filter` callback. */
  function Keep(c: Criteria, location: string): Event -> bool {
    (e: Event) => MatchesCriteria(c, e) && MatchesLocation(location, e)
  }

  /** `filteredEvents` over a catalog. */
  function FilteredEvents(events: seq<Event>, c: Criteria, location: string): seq<Event> {
    Filter(events, Keep(c, location))
  }

  /**
   * An event is kept iff all five predicates hold, every occurrence of it is
   * kept, and the result is an order-preserving subsequence of the catalog.
   */
  lemma FilteredEventsSpec(events: seq<Event>, c: Criteria, location: string)
    ensures var r := FilteredEvents(events, c, location);
      IsSubsequence(r, events) &&
      (forall e :: e in r <==> e in events && MatchesSearch(c.query, e) && MatchesFormat(c.format, e) &&
                               MatchesCouncil(c.council, e) && MatchesSpecialty(c.specialty, e) &&
                               MatchesLocation(location, e)) &&
      (forall e :: multiset(r)[e] == if Keep(c, location)(e) then multiset(events)[e] else 0)
  {
    FilterSpec(events, Keep(c, location));
    var r := FilteredEvents(events, c, location);
    forall e | e in events && Keep(c, location)(e) ensures e in r {
      var i :| 0 <= i < |events| && events[i] == e;
    }
  }

  /** The predicates can be applied one after another, location first, with the same result. */
  lemma FilterOrderIrrelevant(events: seq<Event>, c: Criteria, location: string)
    ensures FilteredEvents(events, c, location) ==
            Filter(Filter(events, (e: Event) => MatchesLocation(location, e)), CriteriaFilter(c))
  {
    var loc := (e: Event) => MatchesLocation(location, e);
    FilterFilter(events, loc, CriteriaFilter(c));
    FilterExt(events, Keep(c, location), And(loc, CriteriaFilter(c)));
  }

  /** Location `Online` keeps exactly the events in the city `Online` or of format Online. */
  lemma OnlineLocation(events: seq<Event>)
    ensures FilteredEvents(events, DefaultCriteria, "Online") ==
            Filter(events, (e: Event) => e.city == Some("Online") || e.format == Online)
  {
    forall e: Event {
      EmptyQueryMatches(e);
    }
    FilterExt(events, Keep(DefaultCriteria, "Online"), (e: Event) => e.city == Some("Online") || e.format == Online);
  }

  /** Any other location keeps exactly the events in that city. */
  lemma CityLocation(events: seq<Event>, city: string)
    requires city != "All" && city != "Online"
    ensures FilteredEvents(events, DefaultCriteria, city) == Filter(events, (e: Event) => e.city == Some(city))
  {
    forall e: Event {
      EmptyQueryMatches(e);
    }
    FilterExt(events, Keep(DefaultCriteria, city), (e: Event) => e.city == Some(city));
  }

  /** The page's result: the filtered catalog, sorted on a copy. */
  function SortedResult(c: Criteria, location: string, sortBy: string): seq<Event> {
    SortEvents(sortBy, FilteredEvents(MockEvents, c, location))
  }

  /** The tab is `create` exactly on the create path, and `discover` everywhere else. */
  function TabFor(pathname: string): (tab: string)
    ensures tab == "create" <==> pathname == CreatePath
    ensures tab == "create" || tab == "discover"
  {
    if pathname == CreatePath then "create" else "discover"
  }

  /** Where `handleTabChange(tabId)` navigates: `discover` to the events list, anything else to create. */
  function TabTarget(tabId: string): (path: string)
    ensures tabId == "discover" ==> path == EventsPath
    ensures tabId != "discover" ==> path == CreatePath
  {
    if tabId == "discover" then EventsPath else CreatePath
  }

  /** Following a tab's target path selects that tab back, for both tabs. */
  lemma TabRoundTrip(tabId: string)
    requires tabId == "discover" || tabId == "create"
    ensures TabFor(TabTarget(tabId)) == tabId
  {
  }

  /** The page's state: the active tab, the loading flag and the criteria. */
  class OrganizerEventsPage {
    var activeTab: string
    var isLoading: bool
    var criteria: Criteria
    var selectedLocation: string
    var sortBy: string

    /** Mounting on `pathname`: the tab from the path, default criteria, `date-asc`. */
    constructor (pathname: string)
      ensures activeTab == TabFor(pathname)
      ensures !isLoading
      ensures criteria == DefaultCriteria && selectedLocation == "All" && sortBy == "date-asc"
    {
      activeTab := TabFor(pathname);
      isLoading := false;
      criteria := DefaultCriteria;
      selectedLocation := "All";
      sortBy := "date-asc";
    }

    /** The effect on a path change: only the tab follows the path. */
    method OnPathnameChange(pathname: string)
      modifies this
      ensures activeTab == TabFor(pathname)
      ensures isLoading == old(isLoading) && criteria == old(criteria)
      ensures selectedLocation == old(selectedLocation) && sortBy == old(sortBy)
    {
      activeTab := TabFor(pathname);
    }

    /** `handleTabChange`: the tab becomes `tabId` and the page navigates to its path. */
    method HandleTabChange(tabId: string) returns (target: string)
      modifies this
      ensures activeTab == tabId && target == TabTarget(tabId)
      ensures isLoading == old(isLoading) && criteria == old(criteria)
      ensures selectedLocation == old(selectedLocation) && sortBy == old(sortBy)
    {
      activeTab := tabId;
      target := TabTarget(tabId);
    }

    /** `handleCreateEvent`: the create tab, at the create path. */
    method HandleCreateEvent() returns (target: string)
      modifies this
      ensures activeTab == "create" && target == CreatePath
      ensures isLoading == old(isLoading) && criteria == old(criteria)
      ensures selectedLocation == old(selectedLocation) && sortBy == old(sortBy)
    {
      activeTab := "create";
      target := CreatePath;
    }

    /**
     * `handleEventClick`: the loading screen starts, then the public page of
     * the event is opened with the current path as its referrer.
     */
    method HandleEventClick(eventId: string, pathname: string) returns (target: string, from: string)
      modifies this
      ensures isLoading
      ensures target == "/event/" + eventId && from == pathname
      ensures activeTab == old(activeTab) && criteria == old(criteria)
      ensures selectedLocation == old(selectedLocation) && sortBy == old(sortBy)
    {
      isLoading := true;
      target := "/event/" + eventId;
      from := pathname;
    }

    /** `sortedEvents`: the criteria applied to the catalog, sorted on a fresh copy. */
    method SortedEvents() returns (r: seq<Event>)
      ensures r == SortedResult(criteria, selectedLocation, sortBy)
    {
      var filtered := FilteredEvents(MockEvents, criteria, selectedLocation);
      r := SortedCopy(filtered, Comparator(SortKeyOf(sortBy)));
    }
  }
}
