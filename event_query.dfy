/**
 * The event query shared by the two discovery pages: the search, format,
 * council and specialty predicates of their `filter` callbacks, and the
 * comparator their stable `sort` uses.
 *
 * A criterion is the selected string, with `"All"` meaning "no constraint".
 * Dates are ISO `YYYY-MM-DD` strings, whose lexicographic order is their
 * chronological order; `localeCompare` is the lexicographic order.
 */
module EventQuery {
  import opened Wrappers
  import opened Strings
  import opened Seqs
  import opened Sorting
  import opened MockData

  // --------------------------------------------------------------- filter

  /** The state both pages filter by; `dateRange` is held but never read. */
  datatype Criteria = Criteria(query: string, format: string, council: string, dateRange: string, specialty: string)

  /** The criteria a page starts with: empty query, every selection `All`. */
  const DefaultCriteria := Criteria("", "All", "All", "All", "All")

  /** Title contains the query, or the subtitle does when there is one; both lower-cased. */
  predicate MatchesSearch(query: string, e: Event) {
    Includes(Lower(e.title), Lower(query)) ||
    (e.subtitle.Some? && Includes(Lower(e.subtitle.value), Lower(query)))
  }

  predicate MatchesFormat(selected: string, e: Event) {
    selected == "All" || FormatName(e.format) == selected
  }

  predicate MatchesCouncil(selected: string, e: Event) {
    selected == "All" || CouncilName(e.council) == selected
  }

  /** An event without a specialty only passes `All`. */
  predicate MatchesSpecialty(selected: string, e: Event) {
    selected == "All" || e.specialty == Some(selected)
  }

  /** The four predicates both pages apply. */
  predicate MatchesCriteria(c: Criteria, e: Event) {
    MatchesSearch(c.query, e) && MatchesFormat(c.format, e) &&
    MatchesCouncil(c.council, e) && MatchesSpecialty(c.specialty, e)
  }

  /** The four predicates as the `filter` callback. */
  function CriteriaFilter(c: Criteria): Event -> bool {
    (e: Event) => MatchesCriteria(c, e)
  }

  /** The empty query matches every event: `"".includes` is true and nothing is trimmed. */
  lemma EmptyQueryMatches(e: Event)
    ensures MatchesSearch("", e)
  {
    IncludesEmpty(Lower(e.title));
  }

  /** Search ignores case: queries with the same lower-case form match the same events. */
  lemma SearchIgnoresCase(q1: string, q2: string, e: Event)
    requires Lower(q1) == Lower(q2)
    ensures MatchesSearch(q1, e) <==> MatchesSearch(q2, e)
  {
  }

  /** Without a subtitle only the title can match. */
  lemma SearchWithoutSubtitle(q: string, e: Event)
    requires e.subtitle.None?
    ensures MatchesSearch(q, e) <==> exists j :: OccursAt(Lower(e.title), Lower(q), j)
  {
    IncludesWitness(Lower(e.title), Lower(q));
  }

  // ----------------------------------------------------------------- sort

  /** The cases of the comparator's `switch`. */
  datatype SortKey = DateAsc | DateDesc | ByTitle | Unsorted

  /** The `switch (sortBy)`: the three known keys, and `default` for every other string. */
  function SortKeyOf(sortBy: string): SortKey {
    if sortBy == "date-asc" then DateAsc
    else if sortBy == "date-desc" then DateDesc
    else if sortBy == "title" then ByTitle
    else Unsorted
  }

  /**
   * The comparator is positive: `a` belongs after `b`. `date-asc` subtracts
   * `b`'s date from `a`'s, `date-desc` the other way round, `title` is
   * `a.title.localeCompare(b.title)`, and `default` returns 0.
   */
  predicate After(key: SortKey, a: Event, b: Event) {
    match key
    case DateAsc => LexLess(b.date, a.date)
    case DateDesc => LexLess(a.date, b.date)
    case ByTitle => LexLess(b.title, a.title)
    case Unsorted => false
  }

  function Comparator(key: SortKey): (Event, Event) -> bool {
    (a: Event, b: Event) => After(key, a, b)
  }

  /** `[...events].sort(comparator)` for the selected key. */
  function SortEvents(sortBy: string, events: seq<Event>): seq<Event> {
    Sort(Comparator(SortKeyOf(sortBy)), events)
  }

  /** Every key gives a strict weak order, so the sort is well defined. */
  lemma ComparatorIsStrictWeakOrder(key: SortKey)
    ensures StrictWeakOrder(Comparator(key))
  {
    var after := Comparator(key);
    forall a: Event, b: Event | after(a, b) ensures !after(b, a) {
      match key
      case DateAsc => LexLessAsymmetric(b.date, a.date);
      case DateDesc => LexLessAsymmetric(a.date, b.date);
      case ByTitle => LexLessAsymmetric(b.title, a.title);
      case Unsorted =>
    }
    forall a: Event, b: Event, c: Event | !after(a, b) && !after(b, c) ensures !after(a, c) {
      match key
      case DateAsc => NotLexLessTransitive(a.date, b.date, c.date);
      case DateDesc => NotLexLessTransitive(c.date, b.date, a.date);
      case ByTitle => NotLexLessTransitive(a.title, b.title, c.title);
      case Unsorted =>
    }
  }

  /**
   * The sorted list is a permutation of its input, in comparator order,
   * and stable: the events that tie with any `c` keep their input order.
   */
  lemma SortEventsSpec(sortBy: string, events: seq<Event>, c: Event)
    ensures multiset(SortEvents(sortBy, events)) == multiset(events)
    ensures Sorted(Comparator(SortKeyOf(sortBy)), SortEvents(sortBy, events))
    ensures var tie := TieClass(Comparator(SortKeyOf(sortBy)), c);
            Filter(SortEvents(sortBy, events), tie) == Filter(events, tie)
  {
    ComparatorIsStrictWeakOrder(SortKeyOf(sortBy));
    SortSpec(Comparator(SortKeyOf(sortBy)), events);
    SortStable(Comparator(SortKeyOf(sortBy)), c, events);
  }

  /** Under a date key, two events tie exactly when their dates are equal. */
  lemma DateTie(sortBy: string, a: Event, b: Event)
    requires sortBy == "date-asc" || sortBy == "date-desc"
    ensures TieClass(Comparator(SortKeyOf(sortBy)), a)(b) <==> a.date == b.date
  {
    LexLessTotal(a.date, b.date);
    LexLessIrreflexive(a.date);
  }

  /** Under `title`, two events tie exactly when their titles are equal. */
  lemma TitleTie(a: Event, b: Event)
    ensures TieClass(Comparator(SortKeyOf("title")), a)(b) <==> a.title == b.title
  {
    LexLessTotal(a.title, b.title);
    LexLessIrreflexive(a.title);
  }

  /** `date-asc` output is non-decreasing by date. */
  lemma DateAscNonDecreasing(events: seq<Event>)
    ensures var r := SortEvents("date-asc", events);
            forall i, j :: 0 <= i < j < |r| ==> r[i].date == r[j].date || LexLess(r[i].date, r[j].date)
  {
    ComparatorIsStrictWeakOrder(DateAsc);
    SortSpec(Comparator(DateAsc), events);
    var r := SortEvents("date-asc", events);
    forall i, j | 0 <= i < j < |r| ensures r[i].date == r[j].date || LexLess(r[i].date, r[j].date) {
      assert !After(DateAsc, r[i], r[j]);
      LexLessTotal(r[i].date, r[j].date);
    }
  }

  /** `date-desc` output is non-increasing by date. */
  lemma DateDescNonIncreasing(events: seq<Event>)
    ensures var r := SortEvents("date-desc", events);
            forall i, j :: 0 <= i < j < |r| ==> r[i].date == r[j].date || LexLess(r[j].date, r[i].date)
  {
    ComparatorIsStrictWeakOrder(DateDesc);
    SortSpec(Comparator(DateDesc), events);
    var r := SortEvents("date-desc", events);
    forall i, j | 0 <= i < j < |r| ensures r[i].date == r[j].date || LexLess(r[j].date, r[i].date) {
      assert !After(DateDesc, r[i], r[j]);
      LexLessTotal(r[i].date, r[j].date);
    }
  }

  /** `title` output is non-decreasing by title. */
  lemma TitleNonDecreasing(events: seq<Event>)
    ensures var r := SortEvents("title", events);
            forall i, j :: 0 <= i < j < |r| ==> r[i].title == r[j].title || LexLess(r[i].title, r[j].title)
  {
    ComparatorIsStrictWeakOrder(ByTitle);
    SortSpec(Comparator(ByTitle), events);
    var r := SortEvents("title", events);
    forall i, j | 0 <= i < j < |r| ensures r[i].title == r[j].title || LexLess(r[i].title, r[j].title) {
      assert !After(ByTitle, r[i], r[j]);
      LexLessTotal(r[i].title, r[j].title);
    }
  }

  /** An unknown sort key makes the comparator return 0, so the order is unchanged. */
  lemma UnknownKeyKeepsOrder(sortBy: string, events: seq<Event>)
    requires sortBy != "date-asc" && sortBy != "date-desc" && sortBy != "title"
    ensures SortEvents(sortBy, events) == events
  {
    SortIdentity(Comparator(SortKeyOf(sortBy)), events);
  }

  /** Events already in strictly ascending date order: `date-asc` keeps them, `date-desc` reverses them. */
  lemma AscendingDates(events: seq<Event>)
    requires forall i, j :: 0 <= i < j < |events| ==> LexLess(events[i].date, events[j].date)
    ensures SortEvents("date-asc", events) == events
    ensures SortEvents("date-desc", events) == Reverse(events)
  {
    forall i, j | 0 <= i < j < |events| ensures !After(DateAsc, events[i], events[j]) {
      LexLessAsymmetric(events[i].date, events[j].date);
    }
    SortIdentity(Comparator(DateAsc), events);
    SortReverses(Comparator(DateDesc), events);
  }
}
