/**
 * The seed event catalog, read through the pages that use it: the twelve
 * distinct ids and their lookup, the date order that the date sorts keep
 * or reverse, what the listing and organizer filters keep for the chips
 * and queries a visitor tries first, and the organizer profile's stats.
 *
 * Each filter result is assembled from the catalog's four runs of three events, and
 * each query that misses an event is refuted by a bigram of the query that
 * the event's lower-cased text never contains.
 */
module SeedCatalog {
  import opened Wrappers
  import opened Strings
  import opened Seqs
  import opened MockData
  import opened EventQuery
  import OrganizerEvents
  import EventListing
  import OrganizerProfile
  import PublicEventPage
  import Sorting

  lemma CatalogQuarters()
    ensures MockEvents == [E1, E2, E3] + [E4, E5, E6] + [E7, E8, E9] + [E10, E11, E12]
  {
  }

  // ----------------------------------------------------------------- ids

  const CatalogIdList: seq<string> := ["1", "2", "3", "4", "5", "6", "7", "8", "9", "10", "11", "12"]

  lemma IdListDistinct()
    ensures forall i, j :: 0 <= i < j < |CatalogIdList| ==> CatalogIdList[i] != CatalogIdList[j]
  {
  }

  /** The catalog holds twelve events with the ids `1` to `12`, in order. */
  lemma CatalogIds()
    ensures |MockEvents| == 12 && Ids(MockEvents) == CatalogIdList
  {
  }

  /** No two events of the catalog share an id. */
  lemma CatalogIdsDistinct()
    ensures forall i, j :: 0 <= i < j < |MockEvents| ==> MockEvents[i].id != MockEvents[j].id
  {
    CatalogIds();
    IdListDistinct();
    forall i, j | 0 <= i < j < |MockEvents| ensures MockEvents[i].id != MockEvents[j].id {
      assert Ids(MockEvents)[i] == MockEvents[i].id && Ids(MockEvents)[j] == MockEvents[j].id;
    }
  }

  /** The public page opens every catalog event at its own id: the first match is the only one. */
  lemma CatalogLookup()
    ensures forall e :: e in MockEvents ==> PublicEventPage.FindEvent(MockEvents, e.id) == Some(e)
  {
    CatalogIdsDistinct();
    forall e | e in MockEvents ensures PublicEventPage.FindEvent(MockEvents, e.id) == Some(e) {
      PublicEventPage.FindEventUnique(MockEvents, e);
    }
  }

  /** An id is found exactly when it is one of `1` to `12`. */
  lemma CatalogNotFound(id: string)
    ensures PublicEventPage.ViewFor(MockEvents, id).NotFound? <==> id !in CatalogIdList
  {
    CatalogIds();
    PublicEventPage.FindEventSpec(MockEvents, id);
    if id in CatalogIdList {
      var k :| 0 <= k < |CatalogIdList| && CatalogIdList[k] == id;
      assert Ids(MockEvents)[k] == MockEvents[k].id;
    } else {
      forall i | 0 <= i < |MockEvents| ensures MockEvents[i].id != id {
        assert Ids(MockEvents)[i] == MockEvents[i].id;
      }
    }
  }

  /** Every catalog id has at most two characters. */
  lemma CatalogIdsShort(id: string)
    requires |id| > 2
    ensures id !in CatalogIdList
    ensures forall i :: 0 <= i < |MockEvents| ==> MockEvents[i].id != id
  {
    CatalogIds();
    forall i | 0 <= i < |MockEvents| ensures MockEvents[i].id != id {
      assert Ids(MockEvents)[i] == MockEvents[i].id;
    }
  }

  /**
   * "Open Public Page" as written: the stamp is a millisecond clock reading,
   * longer than any catalog id, and the published form is never added to
   * the catalog, so the page it opens shows "Event not found".
   */
  lemma PublishedPageNotFound(stamp: string)
    requires |stamp| > 2
    ensures PublicEventPage.ViewFor(MockEvents, stamp).NotFound?
  {
    CatalogIdsShort(stamp);
    CatalogNotFound(stamp);
  }

  /**
   * As intended: once the published event joins the catalog under the
   * stamp, its public page shows it, and every catalog event still opens
   * as before.
   */
  lemma PublishedPageShown(e: Event)
    requires |e.id| > 2
    ensures PublicEventPage.ViewFor(MockEvents + [e], e.id) == PublicEventPage.Details(e)
    ensures forall id :: id != e.id ==>
              PublicEventPage.ViewFor(MockEvents + [e], id) == PublicEventPage.ViewFor(MockEvents, id)
  {
    CatalogIdsShort(e.id);
    PublicEventPage.ViewAfterPublish(MockEvents, e);
  }

  // --------------------------------------------------------------- dates

  /** Dates strictly ascend along the list. */
  predicate DatesAscend(s: seq<Event>) {
    forall i, j :: 0 <= i < j < |s| ==> LexLess(s[i].date, s[j].date)
  }

  /** One date before the next, decided at their first differing character. */
  lemma DateStep(a: string, b: string, k: nat)
    requires k < |a| == |b| && a[..k] == b[..k] && a[k] < b[k]
    ensures LexLess(a, b)
  {
    LexLessAt(a, b, k);
  }

  lemma Date1Before2()
    ensures LexLess(E1.date, E2.date)
  {
    DateStep("2025-11-20", "2025-11-22", 9);
  }

  lemma Date2Before3()
    ensures LexLess(E2.date, E3.date)
  {
    DateStep("2025-11-22", "2025-11-25", 9);
  }

  lemma Date3Before4()
    ensures LexLess(E3.date, E4.date)
  {
    DateStep("2025-11-25", "2025-11-28", 9);
  }

  lemma Date4Before5()
    ensures LexLess(E4.date, E5.date)
  {
    DateStep("2025-11-28", "2025-12-01", 6);
  }

  lemma Date5Before6()
    ensures LexLess(E5.date, E6.date)
  {
    DateStep("2025-12-01", "2025-12-03", 9);
  }

  lemma Date6Before7()
    ensures LexLess(E6.date, E7.date)
  {
    DateStep("2025-12-03", "2025-12-05", 9);
  }

  lemma Date7Before8()
    ensures LexLess(E7.date, E8.date)
  {
    DateStep("2025-12-05", "2025-12-08", 9);
  }

  lemma Date8Before9()
    ensures LexLess(E8.date, E9.date)
  {
    DateStep("2025-12-08", "2025-12-10", 8);
  }

  lemma Date9Before10()
    ensures LexLess(E9.date, E10.date)
  {
    DateStep("2025-12-10", "2025-12-12", 9);
  }

  lemma Date10Before11()
    ensures LexLess(E10.date, E11.date)
  {
    DateStep("2025-12-12", "2025-12-15", 9);
  }

  lemma Date11Before12()
    ensures LexLess(E11.date, E12.date)
  {
    DateStep("2025-12-15", "2025-12-18", 9);
  }

  /** Three events whose dates step up one after the other ascend. */
  lemma ThreeAscend(a: Event, b: Event, c: Event)
    requires LexLess(a.date, b.date) && LexLess(b.date, c.date)
    ensures DatesAscend([a, b, c])
  {
    LexLessTransitive(a.date, b.date, c.date);
  }

  /** Two ascending lists, the first ending before the second begins, ascend when joined. */
  lemma JoinAscend(s: seq<Event>, t: seq<Event>)
    requires DatesAscend(s) && DatesAscend(t) && s != [] && t != []
    requires LexLess(s[|s| - 1].date, t[0].date)
    ensures DatesAscend(s + t)
  {
    var u := s + t;
    forall i, j | 0 <= i < j < |u| ensures LexLess(u[i].date, u[j].date) {
      if i < |s| <= j {
        var last, first := s[|s| - 1].date, t[0].date;
        if i < |s| - 1 {
          LexLessTransitive(u[i].date, last, first);
        }
        if j > |s| {
          LexLessTransitive(u[i].date, first, u[j].date);
        }
      }
    }
  }

  lemma FirstHalfAscends()
    ensures DatesAscend([E1, E2, E3] + [E4, E5, E6])
  {
    Date1Before2(); Date2Before3(); Date3Before4(); Date4Before5(); Date5Before6();
    ThreeAscend(E1, E2, E3);
    ThreeAscend(E4, E5, E6);
    JoinAscend([E1, E2, E3], [E4, E5, E6]);
  }

  lemma SecondHalfAscends()
    ensures DatesAscend([E7, E8, E9] + [E10, E11, E12])
  {
    Date7Before8(); Date8Before9(); Date9Before10(); Date10Before11(); Date11Before12();
    ThreeAscend(E7, E8, E9);
    ThreeAscend(E10, E11, E12);
    JoinAscend([E7, E8, E9], [E10, E11, E12]);
  }

  lemma HalvesAscend()
    ensures DatesAscend([E1, E2, E3] + [E4, E5, E6] + ([E7, E8, E9] + [E10, E11, E12]))
  {
    FirstHalfAscends();
    SecondHalfAscends();
    Date6Before7();
    var first, second := [E1, E2, E3] + [E4, E5, E6], [E7, E8, E9] + [E10, E11, E12];
    assert first[|first| - 1] == E6 && second[0] == E7;
    JoinAscend(first, second);
  }

  /** The catalog's dates ascend strictly in array order. */
  lemma CatalogAscends()
    ensures DatesAscend(MockEvents)
  {
    HalvesAscend();
    CatalogQuarters();
    assert [E1, E2, E3] + [E4, E5, E6] + [E7, E8, E9] + [E10, E11, E12] ==
           [E1, E2, E3] + [E4, E5, E6] + ([E7, E8, E9] + [E10, E11, E12]);
  }

  /** Sorting the catalog by `date-asc` returns it unchanged, and `date-desc` returns it reversed. */
  lemma CatalogDateOrder()
    ensures SortEvents("date-asc", MockEvents) == MockEvents
    ensures SortEvents("date-desc", MockEvents) == Reverse(MockEvents)
  {
    CatalogAscends();
    AscendingDates(MockEvents);
  }

  // -------------------------------------------------------------- search

  /**
   * An event whose lower-cased title and subtitle never have `c` right
   * before `m` cannot match the query `ECMO`.
   */
  lemma MissesEcmo(e: Event)
    requires AvoidsPair(Lower(e.title), 'c', 'm')
    requires e.subtitle.Some? ==> AvoidsPair(Lower(e.subtitle.value), 'c', 'm')
    ensures !MatchesSearch("ECMO", e)
  {
    assert Lower("ECMO") == "ecmo";
    AvoidsPairExcludes(Lower(e.title), "ecmo", 1);
    if e.subtitle.Some? {
      AvoidsPairExcludes(Lower(e.subtitle.value), "ecmo", 1);
    }
  }

  /** The third event's title starts with `ECMO`. */
  lemma Event3MatchesEcmo()
    ensures MatchesSearch("ECMO", E3)
  {
    assert Lower("ECMO") == "ecmo";
    assert Lower(E3.title) == "ecmo basics";
    assert OccursAt(Lower(E3.title), "ecmo", 0);
    IncludesWitness(Lower(E3.title), "ecmo");
  }

  // ------------------------------------------------ bigram refutations

  // Each title and subtitle is cut at its spaces into short pieces. A piece
  // avoids `c` followed by `m` once its lower-case form is spelled out, the
  // pieces are joined back with AvoidsPairJoin, and a Splits lemma shows the
  // join is the original text. Every piece is its own lemma because spelling
  // out `Lower` of a literal is proved character by character, which stays
  // cheap only for short literals.

  lemma Piece1AvoidsCm()
    ensures AvoidsPair(Lower("Critical "), 'c', 'm')
  {
    assert Lower("Critical ") == "critical ";
  }

  lemma Piece2AvoidsCm()
    ensures AvoidsPair(Lower("Care Update "), 'c', 'm')
  {
    assert Lower("Care Update ") == "care update ";
  }

  lemma Piece3AvoidsCm()
    ensures AvoidsPair(Lower("(Day-1)"), 'c', 'm')
  {
    assert Lower("(Day-1)") == "(day-1)";
  }

  lemma Piece4AvoidsCm()
    ensures AvoidsPair(Lower("Advanced "), 'c', 'm')
  {
    assert Lower("Advanced ") == "advanced ";
  }

  lemma Piece5AvoidsCm()
    ensures AvoidsPair(Lower("ICU "), 'c', 'm')
  {
    assert Lower("ICU ") == "icu ";
  }

  lemma Piece6AvoidsCm()
    ensures AvoidsPair(Lower("management "), 'c', 'm')
  {
    assert Lower("management ") == "management ";
  }

  lemma Piece7AvoidsCm()
    ensures AvoidsPair(Lower("strategies "), 'c', 'm')
  {
    assert Lower("strategies ") == "strategies ";
  }

  lemma Piece8AvoidsCm()
    ensures AvoidsPair(Lower("for 2025"), 'c', 'm')
  {
    assert Lower("for 2025") == "for 2025";
  }

  lemma Piece9AvoidsCm()
    ensures AvoidsPair(Lower("Airway "), 'c', 'm')
  {
    assert Lower("Airway ") == "airway ";
  }

  lemma Piece10AvoidsCm()
    ensures AvoidsPair(Lower("Workshop \U{2014} "), 'c', 'm')
  {
    assert Lower("Workshop \U{2014} ") == "workshop \U{2014} ";
  }

  lemma Piece11AvoidsCm()
    ensures AvoidsPair(Lower("Hands-on"), 'c', 'm')
  {
    assert Lower("Hands-on") == "hands-on";
  }

  lemma Piece12AvoidsCm()
    ensures AvoidsPair(Lower("Practical "), 'c', 'm')
  {
    assert Lower("Practical ") == "practical ";
  }

  lemma Piece13AvoidsCm()
    ensures AvoidsPair(Lower("skills in "), 'c', 'm')
  {
    assert Lower("skills in ") == "skills in ";
  }

  lemma Piece14AvoidsCm()
    ensures AvoidsPair(Lower("difficult "), 'c', 'm')
  {
    assert Lower("difficult ") == "difficult ";
  }

  lemma Piece15AvoidsCm()
    ensures AvoidsPair(Lower("airway "), 'c', 'm')
  {
    assert Lower("airway ") == "airway ";
  }

  lemma Piece16AvoidsCm()
    ensures AvoidsPair(Lower("management"), 'c', 'm')
  {
    assert Lower("management") == "management";
  }

  lemma Piece17AvoidsCm()
    ensures AvoidsPair(Lower("Cardio "), 'c', 'm')
  {
    assert Lower("Cardio ") == "cardio ";
  }

  lemma Piece18AvoidsCm()
    ensures AvoidsPair(Lower("Summit "), 'c', 'm')
  {
    assert Lower("Summit ") == "summit ";
  }

  lemma Piece19AvoidsCm()
    ensures AvoidsPair(Lower("Jaipur"), 'c', 'm')
  {
    assert Lower("Jaipur") == "jaipur";
  }

  lemma Piece20AvoidsCm()
    ensures AvoidsPair(Lower("Latest "), 'c', 'm')
  {
    assert Lower("Latest ") == "latest ";
  }

  lemma Piece21AvoidsCm()
    ensures AvoidsPair(Lower("advances in "), 'c', 'm')
  {
    assert Lower("advances in ") == "advances in ";
  }

  lemma Piece22AvoidsCm()
    ensures AvoidsPair(Lower("cardiovascular "), 'c', 'm')
  {
    assert Lower("cardiovascular ") == "cardiovascular ";
  }

  lemma Piece23AvoidsCm()
    ensures AvoidsPair(Lower("medicine"), 'c', 'm')
  {
    assert Lower("medicine") == "medicine";
  }

  lemma Piece24AvoidsCm()
    ensures AvoidsPair(Lower("Neuro "), 'c', 'm')
  {
    assert Lower("Neuro ") == "neuro ";
  }

  lemma Piece25AvoidsCm()
    ensures AvoidsPair(Lower("Imaging "), 'c', 'm')
  {
    assert Lower("Imaging ") == "imaging ";
  }

  lemma Piece26AvoidsCm()
    ensures AvoidsPair(Lower("Pearls"), 'c', 'm')
  {
    assert Lower("Pearls") == "pearls";
  }

  lemma Piece27AvoidsCm()
    ensures AvoidsPair(Lower("neuroimaging "), 'c', 'm')
  {
    assert Lower("neuroimaging ") == "neuroimaging ";
  }

  lemma Piece28AvoidsCm()
    ensures AvoidsPair(Lower("techniques "), 'c', 'm')
  {
    assert Lower("techniques ") == "techniques ";
  }

  lemma Piece29AvoidsCm()
    ensures AvoidsPair(Lower("and "), 'c', 'm')
  {
    assert Lower("and ") == "and ";
  }

  lemma Piece30AvoidsCm()
    ensures AvoidsPair(Lower("interpretation"), 'c', 'm')
  {
    assert Lower("interpretation") == "interpretation";
  }

  lemma Piece31AvoidsCm()
    ensures AvoidsPair(Lower("Sepsis "), 'c', 'm')
  {
    assert Lower("Sepsis ") == "sepsis ";
  }

  lemma Piece32AvoidsCm()
    ensures AvoidsPair(Lower("Review 2025"), 'c', 'm')
  {
    assert Lower("Review 2025") == "review 2025";
  }

  lemma Piece33AvoidsCm()
    ensures AvoidsPair(Lower("Evidence-based "), 'c', 'm')
  {
    assert Lower("Evidence-based ") == "evidence-based ";
  }

  lemma Piece34AvoidsCm()
    ensures AvoidsPair(Lower("of sepsis "), 'c', 'm')
  {
    assert Lower("of sepsis ") == "of sepsis ";
  }

  lemma Piece35AvoidsCm()
    ensures AvoidsPair(Lower("and septic "), 'c', 'm')
  {
    assert Lower("and septic ") == "and septic ";
  }

  lemma Piece36AvoidsCm()
    ensures AvoidsPair(Lower("shock"), 'c', 'm')
  {
    assert Lower("shock") == "shock";
  }

  lemma Piece37AvoidsCm()
    ensures AvoidsPair(Lower("Pediatric "), 'c', 'm')
  {
    assert Lower("Pediatric ") == "pediatric ";
  }

  lemma Piece38AvoidsCm()
    ensures AvoidsPair(Lower("Emergency "), 'c', 'm')
  {
    assert Lower("Emergency ") == "emergency ";
  }

  lemma Piece39AvoidsCm()
    ensures AvoidsPair(Lower("Care"), 'c', 'm')
  {
    assert Lower("Care") == "care";
  }

  lemma Piece40AvoidsCm()
    ensures AvoidsPair(Lower("Managing "), 'c', 'm')
  {
    assert Lower("Managing ") == "managing ";
  }

  lemma Piece41AvoidsCm()
    ensures AvoidsPair(Lower("critically "), 'c', 'm')
  {
    assert Lower("critically ") == "critically ";
  }

  lemma Piece42AvoidsCm()
    ensures AvoidsPair(Lower("ill "), 'c', 'm')
  {
    assert Lower("ill ") == "ill ";
  }

  lemma Piece43AvoidsCm()
    ensures AvoidsPair(Lower("children"), 'c', 'm')
  {
    assert Lower("children") == "children";
  }

  lemma Piece44AvoidsCm()
    ensures AvoidsPair(Lower("Trauma Life "), 'c', 'm')
  {
    assert Lower("Trauma Life ") == "trauma life ";
  }

  lemma Piece45AvoidsCm()
    ensures AvoidsPair(Lower("Support "), 'c', 'm')
  {
    assert Lower("Support ") == "support ";
  }

  lemma Piece46AvoidsCm()
    ensures AvoidsPair(Lower("Workshop"), 'c', 'm')
  {
    assert Lower("Workshop") == "workshop";
  }

  lemma Piece47AvoidsCm()
    ensures AvoidsPair(Lower("ATLS "), 'c', 'm')
  {
    assert Lower("ATLS ") == "atls ";
  }

  lemma Piece48AvoidsCm()
    ensures AvoidsPair(Lower("principles "), 'c', 'm')
  {
    assert Lower("principles ") == "principles ";
  }

  lemma Piece49AvoidsCm()
    ensures AvoidsPair(Lower("practice"), 'c', 'm')
  {
    assert Lower("practice") == "practice";
  }

  lemma Piece50AvoidsCm()
    ensures AvoidsPair(Lower("Obstetric "), 'c', 'm')
  {
    assert Lower("Obstetric ") == "obstetric ";
  }

  lemma Piece51AvoidsCm()
    ensures AvoidsPair(Lower("Emergencies "), 'c', 'm')
  {
    assert Lower("Emergencies ") == "emergencies ";
  }

  lemma Piece52AvoidsCm()
    ensures AvoidsPair(Lower("Online"), 'c', 'm')
  {
    assert Lower("Online") == "online";
  }

  lemma Piece53AvoidsCm()
    ensures AvoidsPair(Lower("critical "), 'c', 'm')
  {
    assert Lower("critical ") == "critical ";
  }

  lemma Piece54AvoidsCm()
    ensures AvoidsPair(Lower("obstetric "), 'c', 'm')
  {
    assert Lower("obstetric ") == "obstetric ";
  }

  lemma Piece55AvoidsCm()
    ensures AvoidsPair(Lower("situations"), 'c', 'm')
  {
    assert Lower("situations") == "situations";
  }

  lemma Piece56AvoidsCm()
    ensures AvoidsPair(Lower("Geriatric "), 'c', 'm')
  {
    assert Lower("Geriatric ") == "geriatric ";
  }

  lemma Piece57AvoidsCm()
    ensures AvoidsPair(Lower("Care "), 'c', 'm')
  {
    assert Lower("Care ") == "care ";
  }

  lemma Piece58AvoidsCm()
    ensures AvoidsPair(Lower("Symposium"), 'c', 'm')
  {
    assert Lower("Symposium") == "symposium";
  }

  lemma Piece59AvoidsCm()
    ensures AvoidsPair(Lower("Comprehensive "), 'c', 'm')
  {
    assert Lower("Comprehensive ") == "comprehensive ";
  }

  lemma Piece60AvoidsCm()
    ensures AvoidsPair(Lower("care for "), 'c', 'm')
  {
    assert Lower("care for ") == "care for ";
  }

  lemma Piece61AvoidsCm()
    ensures AvoidsPair(Lower("elderly "), 'c', 'm')
  {
    assert Lower("elderly ") == "elderly ";
  }

  lemma Piece62AvoidsCm()
    ensures AvoidsPair(Lower("patients"), 'c', 'm')
  {
    assert Lower("patients") == "patients";
  }

  lemma Piece63AvoidsCm()
    ensures AvoidsPair(Lower("Radiology "), 'c', 'm')
  {
    assert Lower("Radiology ") == "radiology ";
  }

  lemma Piece64AvoidsCm()
    ensures AvoidsPair(Lower("Update 2025"), 'c', 'm')
  {
    assert Lower("Update 2025") == "update 2025";
  }

  lemma Piece65AvoidsCm()
    ensures AvoidsPair(Lower("imaging "), 'c', 'm')
  {
    assert Lower("imaging ") == "imaging ";
  }

  lemma Piece66AvoidsCm()
    ensures AvoidsPair(Lower("and AI "), 'c', 'm')
  {
    assert Lower("and AI ") == "and ai ";
  }

  lemma Piece67AvoidsCm()
    ensures AvoidsPair(Lower("applications"), 'c', 'm')
  {
    assert Lower("applications") == "applications";
  }

  lemma Piece68AvoidsCm()
    ensures AvoidsPair(Lower("Pain "), 'c', 'm')
  {
    assert Lower("Pain ") == "pain ";
  }

  lemma Piece69AvoidsCm()
    ensures AvoidsPair(Lower("Management "), 'c', 'm')
  {
    assert Lower("Management ") == "management ";
  }

  lemma Piece70AvoidsCm()
    ensures AvoidsPair(Lower("Masterclass"), 'c', 'm')
  {
    assert Lower("Masterclass") == "masterclass";
  }

  lemma Piece71AvoidsCm()
    ensures AvoidsPair(Lower("Multimodal "), 'c', 'm')
  {
    assert Lower("Multimodal ") == "multimodal ";
  }

  lemma Piece72AvoidsCm()
    ensures AvoidsPair(Lower("approaches "), 'c', 'm')
  {
    assert Lower("approaches ") == "approaches ";
  }

  lemma Piece73AvoidsCm()
    ensures AvoidsPair(Lower("to chronic "), 'c', 'm')
  {
    assert Lower("to chronic ") == "to chronic ";
  }

  lemma Piece74AvoidsCm()
    ensures AvoidsPair(Lower("pain"), 'c', 'm')
  {
    assert Lower("pain") == "pain";
  }

  lemma Title1Splits()
    ensures "Critical Care Update (Day-1)" ==
            "Critical " + ("Care Update " + "(Day-1)")
  {
  }

  lemma Title1AvoidsCm()
    ensures AvoidsPair(Lower("Critical Care Update (Day-1)"), 'c', 'm')
  {
    Piece1AvoidsCm();
    Piece2AvoidsCm();
    Piece3AvoidsCm();
    AvoidsPairJoin("Care Update ", "(Day-1)", 'c', 'm');
    AvoidsPairJoin("Critical ", "Care Update " + "(Day-1)", 'c', 'm');
    Title1Splits();
  }

  lemma Subtitle1Splits()
    ensures "Advanced ICU management strategies for 2025" ==
            "Advanced " + ("ICU " + ("management " + ("strategies " + "for 2025")))
  {
  }

  lemma Subtitle1AvoidsCm()
    ensures AvoidsPair(Lower("Advanced ICU management strategies for 2025"), 'c', 'm')
  {
    Piece4AvoidsCm();
    Piece5AvoidsCm();
    Piece6AvoidsCm();
    Piece7AvoidsCm();
    Piece8AvoidsCm();
    AvoidsPairJoin("strategies ", "for 2025", 'c', 'm');
    AvoidsPairJoin("management ", "strategies " + "for 2025", 'c', 'm');
    AvoidsPairJoin("ICU ", "management " + ("strategies " + "for 2025"), 'c', 'm');
    AvoidsPairJoin("Advanced ", "ICU " + ("management " + ("strategies " + "for 2025")), 'c', 'm');
    Subtitle1Splits();
  }

  lemma Title2Splits()
    ensures "Airway Workshop \U{2014} Hands-on" ==
            "Airway " + ("Workshop \U{2014} " + "Hands-on")
  {
  }

  lemma Title2AvoidsCm()
    ensures AvoidsPair(Lower("Airway Workshop \U{2014} Hands-on"), 'c', 'm')
  {
    Piece9AvoidsCm();
    Piece10AvoidsCm();
    Piece11AvoidsCm();
    AvoidsPairJoin("Workshop \U{2014} ", "Hands-on", 'c', 'm');
    AvoidsPairJoin("Airway ", "Workshop \U{2014} " + "Hands-on", 'c', 'm');
    Title2Splits();
  }

  lemma Subtitle2Splits()
    ensures "Practical skills in difficult airway management" ==
            "Practical " + ("skills in " + ("difficult " + ("airway " + "management")))
  {
  }

  lemma Subtitle2AvoidsCm()
    ensures AvoidsPair(Lower("Practical skills in difficult airway management"), 'c', 'm')
  {
    Piece12AvoidsCm();
    Piece13AvoidsCm();
    Piece14AvoidsCm();
    Piece15AvoidsCm();
    Piece16AvoidsCm();
    AvoidsPairJoin("airway ", "management", 'c', 'm');
    AvoidsPairJoin("difficult ", "airway " + "management", 'c', 'm');
    AvoidsPairJoin("skills in ", "difficult " + ("airway " + "management"), 'c', 'm');
    AvoidsPairJoin("Practical ", "skills in " + ("difficult " + ("airway " + "management")), 'c', 'm');
    Subtitle2Splits();
  }

  lemma Title4Splits()
    ensures "Cardio Summit Jaipur" ==
            "Cardio " + ("Summit " + "Jaipur")
  {
  }

  lemma Title4AvoidsCm()
    ensures AvoidsPair(Lower("Cardio Summit Jaipur"), 'c', 'm')
  {
    Piece17AvoidsCm();
    Piece18AvoidsCm();
    Piece19AvoidsCm();
    AvoidsPairJoin("Summit ", "Jaipur", 'c', 'm');
    AvoidsPairJoin("Cardio ", "Summit " + "Jaipur", 'c', 'm');
    Title4Splits();
  }

  lemma Subtitle4Splits()
    ensures "Latest advances in cardiovascular medicine" ==
            "Latest " + ("advances in " + ("cardiovascular " + "medicine"))
  {
  }

  lemma Subtitle4AvoidsCm()
    ensures AvoidsPair(Lower("Latest advances in cardiovascular medicine"), 'c', 'm')
  {
    Piece20AvoidsCm();
    Piece21AvoidsCm();
    Piece22AvoidsCm();
    Piece23AvoidsCm();
    AvoidsPairJoin("cardiovascular ", "medicine", 'c', 'm');
    AvoidsPairJoin("advances in ", "cardiovascular " + "medicine", 'c', 'm');
    AvoidsPairJoin("Latest ", "advances in " + ("cardiovascular " + "medicine"), 'c', 'm');
    Subtitle4Splits();
  }

  lemma Title5Splits()
    ensures "Neuro Imaging Pearls" ==
            "Neuro " + ("Imaging " + "Pearls")
  {
  }

  lemma Title5AvoidsCm()
    ensures AvoidsPair(Lower("Neuro Imaging Pearls"), 'c', 'm')
  {
    Piece24AvoidsCm();
    Piece25AvoidsCm();
    Piece26AvoidsCm();
    AvoidsPairJoin("Imaging ", "Pearls", 'c', 'm');
    AvoidsPairJoin("Neuro ", "Imaging " + "Pearls", 'c', 'm');
    Title5Splits();
  }

  lemma Subtitle5Splits()
    ensures "Advanced neuroimaging techniques and interpretation" ==
            "Advanced " + ("neuroimaging " + ("techniques " + ("and " + "interpretation")))
  {
  }

  lemma Subtitle5AvoidsCm()
    ensures AvoidsPair(Lower("Advanced neuroimaging techniques and interpretation"), 'c', 'm')
  {
    Piece4AvoidsCm();
    Piece27AvoidsCm();
    Piece28AvoidsCm();
    Piece29AvoidsCm();
    Piece30AvoidsCm();
    AvoidsPairJoin("and ", "interpretation", 'c', 'm');
    AvoidsPairJoin("techniques ", "and " + "interpretation", 'c', 'm');
    AvoidsPairJoin("neuroimaging ", "techniques " + ("and " + "interpretation"), 'c', 'm');
    AvoidsPairJoin("Advanced ", "neuroimaging " + ("techniques " + ("and " + "interpretation")), 'c', 'm');
    Subtitle5Splits();
  }

  lemma Title6Splits()
    ensures "Sepsis Review 2025" ==
            "Sepsis " + "Review 2025"
  {
  }

  lemma Title6AvoidsCm()
    ensures AvoidsPair(Lower("Sepsis Review 2025"), 'c', 'm')
  {
    Piece31AvoidsCm();
    Piece32AvoidsCm();
    AvoidsPairJoin("Sepsis ", "Review 2025", 'c', 'm');
    Title6Splits();
  }

  lemma Subtitle6Splits()
    ensures "Evidence-based management of sepsis and septic shock" ==
            "Evidence-based " + ("management " + ("of sepsis " + ("and septic " + "shock")))
  {
  }

  lemma Subtitle6AvoidsCm()
    ensures AvoidsPair(Lower("Evidence-based management of sepsis and septic shock"), 'c', 'm')
  {
    Piece33AvoidsCm();
    Piece6AvoidsCm();
    Piece34AvoidsCm();
    Piece35AvoidsCm();
    Piece36AvoidsCm();
    AvoidsPairJoin("and septic ", "shock", 'c', 'm');
    AvoidsPairJoin("of sepsis ", "and septic " + "shock", 'c', 'm');
    AvoidsPairJoin("management ", "of sepsis " + ("and septic " + "shock"), 'c', 'm');
    AvoidsPairJoin("Evidence-based ", "management " + ("of sepsis " + ("and septic " + "shock")), 'c', 'm');
    Subtitle6Splits();
  }

  lemma Title7Splits()
    ensures "Pediatric Emergency Care" ==
            "Pediatric " + ("Emergency " + "Care")
  {
  }

  lemma Title7AvoidsCm()
    ensures AvoidsPair(Lower("Pediatric Emergency Care"), 'c', 'm')
  {
    Piece37AvoidsCm();
    Piece38AvoidsCm();
    Piece39AvoidsCm();
    AvoidsPairJoin("Emergency ", "Care", 'c', 'm');
    AvoidsPairJoin("Pediatric ", "Emergency " + "Care", 'c', 'm');
    Title7Splits();
  }

  lemma Subtitle7Splits()
    ensures "Managing critically ill children" ==
            "Managing " + ("critically " + ("ill " + "children"))
  {
  }

  lemma Subtitle7AvoidsCm()
    ensures AvoidsPair(Lower("Managing critically ill children"), 'c', 'm')
  {
    Piece40AvoidsCm();
    Piece41AvoidsCm();
    Piece42AvoidsCm();
    Piece43AvoidsCm();
    AvoidsPairJoin("ill ", "children", 'c', 'm');
    AvoidsPairJoin("critically ", "ill " + "children", 'c', 'm');
    AvoidsPairJoin("Managing ", "critically " + ("ill " + "children"), 'c', 'm');
    Subtitle7Splits();
  }

  lemma Title8Splits()
    ensures "Trauma Life Support Workshop" ==
            "Trauma Life " + ("Support " + "Workshop")
  {
  }

  lemma Title8AvoidsCm()
    ensures AvoidsPair(Lower("Trauma Life Support Workshop"), 'c', 'm')
  {
    Piece44AvoidsCm();
    Piece45AvoidsCm();
    Piece46AvoidsCm();
    AvoidsPairJoin("Support ", "Workshop", 'c', 'm');
    AvoidsPairJoin("Trauma Life ", "Support " + "Workshop", 'c', 'm');
    Title8Splits();
  }

  lemma Subtitle8Splits()
    ensures "ATLS principles and practice" ==
            "ATLS " + ("principles " + ("and " + "practice"))
  {
  }

  lemma Subtitle8AvoidsCm()
    ensures AvoidsPair(Lower("ATLS principles and practice"), 'c', 'm')
  {
    Piece47AvoidsCm();
    Piece48AvoidsCm();
    Piece29AvoidsCm();
    Piece49AvoidsCm();
    AvoidsPairJoin("and ", "practice", 'c', 'm');
    AvoidsPairJoin("principles ", "and " + "practice", 'c', 'm');
    AvoidsPairJoin("ATLS ", "principles " + ("and " + "practice"), 'c', 'm');
    Subtitle8Splits();
  }

  lemma Title9Splits()
    ensures "Obstetric Emergencies Online" ==
            "Obstetric " + ("Emergencies " + "Online")
  {
  }

  lemma Title9AvoidsCm()
    ensures AvoidsPair(Lower("Obstetric Emergencies Online"), 'c', 'm')
  {
    Piece50AvoidsCm();
    Piece51AvoidsCm();
    Piece52AvoidsCm();
    AvoidsPairJoin("Emergencies ", "Online", 'c', 'm');
    AvoidsPairJoin("Obstetric ", "Emergencies " + "Online", 'c', 'm');
    Title9Splits();
  }

  lemma Subtitle9Splits()
    ensures "Managing critical obstetric situations" ==
            "Managing " + ("critical " + ("obstetric " + "situations"))
  {
  }

  lemma Subtitle9AvoidsCm()
    ensures AvoidsPair(Lower("Managing critical obstetric situations"), 'c', 'm')
  {
    Piece40AvoidsCm();
    Piece53AvoidsCm();
    Piece54AvoidsCm();
    Piece55AvoidsCm();
    AvoidsPairJoin("obstetric ", "situations", 'c', 'm');
    AvoidsPairJoin("critical ", "obstetric " + "situations", 'c', 'm');
    AvoidsPairJoin("Managing ", "critical " + ("obstetric " + "situations"), 'c', 'm');
    Subtitle9Splits();
  }

  lemma Title10Splits()
    ensures "Geriatric Care Symposium" ==
            "Geriatric " + ("Care " + "Symposium")
  {
  }

  lemma Title10AvoidsCm()
    ensures AvoidsPair(Lower("Geriatric Care Symposium"), 'c', 'm')
  {
    Piece56AvoidsCm();
    Piece57AvoidsCm();
    Piece58AvoidsCm();
    AvoidsPairJoin("Care ", "Symposium", 'c', 'm');
    AvoidsPairJoin("Geriatric ", "Care " + "Symposium", 'c', 'm');
    Title10Splits();
  }

  lemma Subtitle10Splits()
    ensures "Comprehensive care for elderly patients" ==
            "Comprehensive " + ("care for " + ("elderly " + "patients"))
  {
  }

  lemma Subtitle10AvoidsCm()
    ensures AvoidsPair(Lower("Comprehensive care for elderly patients"), 'c', 'm')
  {
    Piece59AvoidsCm();
    Piece60AvoidsCm();
    Piece61AvoidsCm();
    Piece62AvoidsCm();
    AvoidsPairJoin("elderly ", "patients", 'c', 'm');
    AvoidsPairJoin("care for ", "elderly " + "patients", 'c', 'm');
    AvoidsPairJoin("Comprehensive ", "care for " + ("elderly " + "patients"), 'c', 'm');
    Subtitle10Splits();
  }

  lemma Title11Splits()
    ensures "Radiology Update 2025" ==
            "Radiology " + "Update 2025"
  {
  }

  lemma Title11AvoidsCm()
    ensures AvoidsPair(Lower("Radiology Update 2025"), 'c', 'm')
  {
    Piece63AvoidsCm();
    Piece64AvoidsCm();
    AvoidsPairJoin("Radiology ", "Update 2025", 'c', 'm');
    Title11Splits();
  }

  lemma Subtitle11Splits()
    ensures "Latest imaging techniques and AI applications" ==
            "Latest " + ("imaging " + ("techniques " + ("and AI " + "applications")))
  {
  }

  lemma Subtitle11AvoidsCm()
    ensures AvoidsPair(Lower("Latest imaging techniques and AI applications"), 'c', 'm')
  {
    Piece20AvoidsCm();
    Piece65AvoidsCm();
    Piece28AvoidsCm();
    Piece66AvoidsCm();
    Piece67AvoidsCm();
    AvoidsPairJoin("and AI ", "applications", 'c', 'm');
    AvoidsPairJoin("techniques ", "and AI " + "applications", 'c', 'm');
    AvoidsPairJoin("imaging ", "techniques " + ("and AI " + "applications"), 'c', 'm');
    AvoidsPairJoin("Latest ", "imaging " + ("techniques " + ("and AI " + "applications")), 'c', 'm');
    Subtitle11Splits();
  }

  lemma Title12Splits()
    ensures "Pain Management Masterclass" ==
            "Pain " + ("Management " + "Masterclass")
  {
  }

  lemma Title12AvoidsCm()
    ensures AvoidsPair(Lower("Pain Management Masterclass"), 'c', 'm')
  {
    Piece68AvoidsCm();
    Piece69AvoidsCm();
    Piece70AvoidsCm();
    AvoidsPairJoin("Management ", "Masterclass", 'c', 'm');
    AvoidsPairJoin("Pain ", "Management " + "Masterclass", 'c', 'm');
    Title12Splits();
  }

  lemma Subtitle12Splits()
    ensures "Multimodal approaches to chronic pain" ==
            "Multimodal " + ("approaches " + ("to chronic " + "pain"))
  {
  }

  lemma Subtitle12AvoidsCm()
    ensures AvoidsPair(Lower("Multimodal approaches to chronic pain"), 'c', 'm')
  {
    Piece71AvoidsCm();
    Piece72AvoidsCm();
    Piece73AvoidsCm();
    Piece74AvoidsCm();
    AvoidsPairJoin("to chronic ", "pain", 'c', 'm');
    AvoidsPairJoin("approaches ", "to chronic " + "pain", 'c', 'm');
    AvoidsPairJoin("Multimodal ", "approaches " + ("to chronic " + "pain"), 'c', 'm');
    Subtitle12Splits();
  }

  lemma Event1MissesEcmo()
    ensures !MatchesSearch("ECMO", E1)
  {
    Title1AvoidsCm();
    Subtitle1AvoidsCm();
    MissesEcmo(E1);
  }

  lemma Event2MissesEcmo()
    ensures !MatchesSearch("ECMO", E2)
  {
    Title2AvoidsCm();
    Subtitle2AvoidsCm();
    MissesEcmo(E2);
  }

  lemma Event4MissesEcmo()
    ensures !MatchesSearch("ECMO", E4)
  {
    Title4AvoidsCm();
    Subtitle4AvoidsCm();
    MissesEcmo(E4);
  }

  lemma Event5MissesEcmo()
    ensures !MatchesSearch("ECMO", E5)
  {
    Title5AvoidsCm();
    Subtitle5AvoidsCm();
    MissesEcmo(E5);
  }

  lemma Event6MissesEcmo()
    ensures !MatchesSearch("ECMO", E6)
  {
    Title6AvoidsCm();
    Subtitle6AvoidsCm();
    MissesEcmo(E6);
  }

  lemma Event7MissesEcmo()
    ensures !MatchesSearch("ECMO", E7)
  {
    Title7AvoidsCm();
    Subtitle7AvoidsCm();
    MissesEcmo(E7);
  }

  lemma Event8MissesEcmo()
    ensures !MatchesSearch("ECMO", E8)
  {
    Title8AvoidsCm();
    Subtitle8AvoidsCm();
    MissesEcmo(E8);
  }

  lemma Event9MissesEcmo()
    ensures !MatchesSearch("ECMO", E9)
  {
    Title9AvoidsCm();
    Subtitle9AvoidsCm();
    MissesEcmo(E9);
  }

  lemma Event10MissesEcmo()
    ensures !MatchesSearch("ECMO", E10)
  {
    Title10AvoidsCm();
    Subtitle10AvoidsCm();
    MissesEcmo(E10);
  }

  lemma Event11MissesEcmo()
    ensures !MatchesSearch("ECMO", E11)
  {
    Title11AvoidsCm();
    Subtitle11AvoidsCm();
    MissesEcmo(E11);
  }

  lemma Event12MissesEcmo()
    ensures !MatchesSearch("ECMO", E12)
  {
    Title12AvoidsCm();
    Subtitle12AvoidsCm();
    MissesEcmo(E12);
  }
  // ------------------------------------------------------------- filters

  lemma OnlineQuarter1()
    ensures Filter([E1, E2, E3], CriteriaFilter(Criteria("", "Online", "All", "All", "All"))) == [E2, E3]
  {
    FilterThree(E1, E2, E3, CriteriaFilter(Criteria("", "Online", "All", "All", "All")));
    EmptyQueryMatches(E2);
    EmptyQueryMatches(E3);
  }

  lemma OnlineQuarter2()
    ensures Filter([E4, E5, E6], CriteriaFilter(Criteria("", "Online", "All", "All", "All"))) == [E5]
  {
    FilterThree(E4, E5, E6, CriteriaFilter(Criteria("", "Online", "All", "All", "All")));
    EmptyQueryMatches(E5);
  }

  lemma OnlineQuarter3()
    ensures Filter([E7, E8, E9], CriteriaFilter(Criteria("", "Online", "All", "All", "All"))) == [E7, E9]
  {
    FilterThree(E7, E8, E9, CriteriaFilter(Criteria("", "Online", "All", "All", "All")));
    EmptyQueryMatches(E7);
    EmptyQueryMatches(E9);
  }

  lemma OnlineQuarter4()
    ensures Filter([E10, E11, E12], CriteriaFilter(Criteria("", "Online", "All", "All", "All"))) == [E12]
  {
    FilterThree(E10, E11, E12, CriteriaFilter(Criteria("", "Online", "All", "All", "All")));
    EmptyQueryMatches(E12);
  }

  /** The format chip `Online` keeps the events 2, 3, 5, 7, 9 and 12. */
  lemma OnlineCatalog()
    ensures EventListing.ListingFilter(MockEvents, Criteria("", "Online", "All", "All", "All")) == [E2, E3, E5, E7, E9, E12]
  {
    CatalogQuarters();
    OnlineQuarter1();
    OnlineQuarter2();
    OnlineQuarter3();
    OnlineQuarter4();
    Assemble(MockEvents, CriteriaFilter(Criteria("", "Online", "All", "All", "All")), [E1, E2, E3], [E4, E5, E6], [E7, E8, E9], [E10, E11, E12], [E2, E3, E5, E7, E9, E12]);
  }

  lemma EcmoQuarter1()
    ensures Filter([E1, E2, E3], CriteriaFilter(Criteria("ECMO", "All", "All", "All", "All"))) == [E3]
  {
    FilterThree(E1, E2, E3, CriteriaFilter(Criteria("ECMO", "All", "All", "All", "All")));
    Event1MissesEcmo();
    Event2MissesEcmo();
    Event3MatchesEcmo();
  }

  lemma EcmoQuarter2()
    ensures Filter([E4, E5, E6], CriteriaFilter(Criteria("ECMO", "All", "All", "All", "All"))) == []
  {
    FilterThree(E4, E5, E6, CriteriaFilter(Criteria("ECMO", "All", "All", "All", "All")));
    Event4MissesEcmo();
    Event5MissesEcmo();
    Event6MissesEcmo();
  }

  lemma EcmoQuarter3()
    ensures Filter([E7, E8, E9], CriteriaFilter(Criteria("ECMO", "All", "All", "All", "All"))) == []
  {
    FilterThree(E7, E8, E9, CriteriaFilter(Criteria("ECMO", "All", "All", "All", "All")));
    Event7MissesEcmo();
    Event8MissesEcmo();
    Event9MissesEcmo();
  }

  lemma EcmoQuarter4()
    ensures Filter([E10, E11, E12], CriteriaFilter(Criteria("ECMO", "All", "All", "All", "All"))) == []
  {
    FilterThree(E10, E11, E12, CriteriaFilter(Criteria("ECMO", "All", "All", "All", "All")));
    Event10MissesEcmo();
    Event11MissesEcmo();
    Event12MissesEcmo();
  }

  /** The query `ECMO` keeps only event 3. */
  lemma EcmoCatalog()
    ensures EventListing.ListingFilter(MockEvents, Criteria("ECMO", "All", "All", "All", "All")) == [E3]
  {
    CatalogQuarters();
    EcmoQuarter1();
    EcmoQuarter2();
    EcmoQuarter3();
    EcmoQuarter4();
    Assemble(MockEvents, CriteriaFilter(Criteria("ECMO", "All", "All", "All", "All")), [E1, E2, E3], [E4, E5, E6], [E7, E8, E9], [E10, E11, E12], [E3]);
  }

  lemma CardiologyQuarter1()
    ensures Filter([E1, E2, E3], CriteriaFilter(Criteria("", "All", "All", "All", "Cardiology"))) == []
  {
    FilterThree(E1, E2, E3, CriteriaFilter(Criteria("", "All", "All", "All", "Cardiology")));
  }

  lemma CardiologyQuarter2()
    ensures Filter([E4, E5, E6], CriteriaFilter(Criteria("", "All", "All", "All", "Cardiology"))) == [E4]
  {
    FilterThree(E4, E5, E6, CriteriaFilter(Criteria("", "All", "All", "All", "Cardiology")));
    EmptyQueryMatches(E4);
  }

  lemma CardiologyQuarter3()
    ensures Filter([E7, E8, E9], CriteriaFilter(Criteria("", "All", "All", "All", "Cardiology"))) == []
  {
    FilterThree(E7, E8, E9, CriteriaFilter(Criteria("", "All", "All", "All", "Cardiology")));
  }

  lemma CardiologyQuarter4()
    ensures Filter([E10, E11, E12], CriteriaFilter(Criteria("", "All", "All", "All", "Cardiology"))) == []
  {
    FilterThree(E10, E11, E12, CriteriaFilter(Criteria("", "All", "All", "All", "Cardiology")));
  }

  /** The specialty `Cardiology` keeps only event 4. */
  lemma CardiologyCatalog()
    ensures EventListing.ListingFilter(MockEvents, Criteria("", "All", "All", "All", "Cardiology")) == [E4]
  {
    CatalogQuarters();
    CardiologyQuarter1();
    CardiologyQuarter2();
    CardiologyQuarter3();
    CardiologyQuarter4();
    Assemble(MockEvents, CriteriaFilter(Criteria("", "All", "All", "All", "Cardiology")), [E1, E2, E3], [E4, E5, E6], [E7, E8, E9], [E10, E11, E12], [E4]);
  }

  lemma RmcQuarter1()
    ensures Filter([E1, E2, E3], CriteriaFilter(Criteria("", "All", "RMC", "All", "All"))) == []
  {
    FilterThree(E1, E2, E3, CriteriaFilter(Criteria("", "All", "RMC", "All", "All")));
  }

  lemma RmcQuarter2()
    ensures Filter([E4, E5, E6], CriteriaFilter(Criteria("", "All", "RMC", "All", "All"))) == [E5]
  {
    FilterThree(E4, E5, E6, CriteriaFilter(Criteria("", "All", "RMC", "All", "All")));
    EmptyQueryMatches(E5);
  }

  lemma RmcQuarter3()
    ensures Filter([E7, E8, E9], CriteriaFilter(Criteria("", "All", "RMC", "All", "All"))) == [E9]
  {
    FilterThree(E7, E8, E9, CriteriaFilter(Criteria("", "All", "RMC", "All", "All")));
    EmptyQueryMatches(E9);
  }

  lemma RmcQuarter4()
    ensures Filter([E10, E11, E12], CriteriaFilter(Criteria("", "All", "RMC", "All", "All"))) == [E11]
  {
    FilterThree(E10, E11, E12, CriteriaFilter(Criteria("", "All", "RMC", "All", "All")));
    EmptyQueryMatches(E11);
  }

  /** The council `RMC` keeps the events 5, 9 and 11. */
  lemma RmcCatalog()
    ensures EventListing.ListingFilter(MockEvents, Criteria("", "All", "RMC", "All", "All")) == [E5, E9, E11]
  {
    CatalogQuarters();
    RmcQuarter1();
    RmcQuarter2();
    RmcQuarter3();
    RmcQuarter4();
    Assemble(MockEvents, CriteriaFilter(Criteria("", "All", "RMC", "All", "All")), [E1, E2, E3], [E4, E5, E6], [E7, E8, E9], [E10, E11, E12], [E5, E9, E11]);
  }

  lemma DelhiQuarter1()
    ensures Filter([E1, E2, E3], OrganizerEvents.Keep(DefaultCriteria, "Delhi")) == [E1]
  {
    FilterThree(E1, E2, E3, OrganizerEvents.Keep(DefaultCriteria, "Delhi"));
    EmptyQueryMatches(E1);
  }

  lemma DelhiQuarter2()
    ensures Filter([E4, E5, E6], OrganizerEvents.Keep(DefaultCriteria, "Delhi")) == []
  {
    FilterThree(E4, E5, E6, OrganizerEvents.Keep(DefaultCriteria, "Delhi"));
  }

  lemma DelhiQuarter3()
    ensures Filter([E7, E8, E9], OrganizerEvents.Keep(DefaultCriteria, "Delhi")) == []
  {
    FilterThree(E7, E8, E9, OrganizerEvents.Keep(DefaultCriteria, "Delhi"));
  }

  lemma DelhiQuarter4()
    ensures Filter([E10, E11, E12], OrganizerEvents.Keep(DefaultCriteria, "Delhi")) == [E10]
  {
    FilterThree(E10, E11, E12, OrganizerEvents.Keep(DefaultCriteria, "Delhi"));
    EmptyQueryMatches(E10);
  }

  /** On the organizer page, location `Delhi` keeps the events 1 and 10. */
  lemma DelhiCatalog()
    ensures OrganizerEvents.FilteredEvents(MockEvents, DefaultCriteria, "Delhi") == [E1, E10]
  {
    CatalogQuarters();
    DelhiQuarter1();
    DelhiQuarter2();
    DelhiQuarter3();
    DelhiQuarter4();
    Assemble(MockEvents, OrganizerEvents.Keep(DefaultCriteria, "Delhi"), [E1, E2, E3], [E4, E5, E6], [E7, E8, E9], [E10, E11, E12], [E1, E10]);
  }

  lemma MumbaiQuarter1()
    ensures Filter([E1, E2, E3], OrganizerEvents.Keep(DefaultCriteria, "Mumbai")) == []
  {
    FilterThree(E1, E2, E3, OrganizerEvents.Keep(DefaultCriteria, "Mumbai"));
  }

  lemma MumbaiQuarter2()
    ensures Filter([E4, E5, E6], OrganizerEvents.Keep(DefaultCriteria, "Mumbai")) == [E6]
  {
    FilterThree(E4, E5, E6, OrganizerEvents.Keep(DefaultCriteria, "Mumbai"));
    EmptyQueryMatches(E6);
  }

  lemma MumbaiQuarter3()
    ensures Filter([E7, E8, E9], OrganizerEvents.Keep(DefaultCriteria, "Mumbai")) == []
  {
    FilterThree(E7, E8, E9, OrganizerEvents.Keep(DefaultCriteria, "Mumbai"));
  }

  lemma MumbaiQuarter4()
    ensures Filter([E10, E11, E12], OrganizerEvents.Keep(DefaultCriteria, "Mumbai")) == [E11]
  {
    FilterThree(E10, E11, E12, OrganizerEvents.Keep(DefaultCriteria, "Mumbai"));
    EmptyQueryMatches(E11);
  }

  /** On the organizer page, location `Mumbai` keeps the events 6 and 11. */
  lemma MumbaiCatalog()
    ensures OrganizerEvents.FilteredEvents(MockEvents, DefaultCriteria, "Mumbai") == [E6, E11]
  {
    CatalogQuarters();
    MumbaiQuarter1();
    MumbaiQuarter2();
    MumbaiQuarter3();
    MumbaiQuarter4();
    Assemble(MockEvents, OrganizerEvents.Keep(DefaultCriteria, "Mumbai"), [E1, E2, E3], [E4, E5, E6], [E7, E8, E9], [E10, E11, E12], [E6, E11]);
  }

  lemma OwnQuarter1()
    ensures Filter([E1, E2, E3], OrganizerProfile.OwnEvent()) == [E1, E2, E3]
  {
    FilterThree(E1, E2, E3, OrganizerProfile.OwnEvent());
  }

  lemma OwnQuarter2()
    ensures Filter([E4, E5, E6], OrganizerProfile.OwnEvent()) == []
  {
    FilterThree(E4, E5, E6, OrganizerProfile.OwnEvent());
  }

  lemma OwnQuarter3()
    ensures Filter([E7, E8, E9], OrganizerProfile.OwnEvent()) == []
  {
    FilterThree(E7, E8, E9, OrganizerProfile.OwnEvent());
  }

  lemma OwnQuarter4()
    ensures Filter([E10, E11, E12], OrganizerProfile.OwnEvent()) == []
  {
    FilterThree(E10, E11, E12, OrganizerProfile.OwnEvent());
  }

  /** The profile lists the events 1 to 3, the ones of its three organizer names. */
  lemma OwnCatalog()
    ensures OrganizerProfile.OrganizerEventsOf(MockEvents) == [E1, E2, E3]
  {
    CatalogQuarters();
    OwnQuarter1();
    OwnQuarter2();
    OwnQuarter3();
    OwnQuarter4();
    Assemble(MockEvents, OrganizerProfile.OwnEvent(), [E1, E2, E3], [E4, E5, E6], [E7, E8, E9], [E10, E11, E12], [E1, E2, E3]);
  }
  // --------------------------------------------------------------- stats

  /** The three events of the profile's names and their counts. */
  lemma OwnStats()
    ensures SumInt([E1, E2, E3], OrganizerProfile.Attendees()) == 382
    ensures SumReal([E1, E2, E3], OrganizerProfile.Credits()) == 14.0
  {
    var own := [E1, E2, E3];
    assert SumIntFrom(own, OrganizerProfile.Attendees(), 3) == 0;
    assert SumIntFrom(own, OrganizerProfile.Attendees(), 2) == 100;
    assert SumIntFrom(own, OrganizerProfile.Attendees(), 1) == 247;
    assert SumRealFrom(own, OrganizerProfile.Credits(), 3) == 0.0;
    assert SumRealFrom(own, OrganizerProfile.Credits(), 2) == 3.0;
    assert SumRealFrom(own, OrganizerProfile.Credits(), 1) == 8.0;
  }

  /**
   * On the seed catalog the profile counts three events, 382 attendees and
   * 14 credits; all three are upcoming on any day before the first, and
   * none is from the third one's day on.
   */
  lemma CatalogStats(now: OrganizerProfile.Now)
    ensures var s := OrganizerProfile.StatsOf(MockEvents, now);
      s.totalEvents == 3 && s.totalAttendees == 382 && s.totalCreditsIssued == 14.0 &&
      (LexLess(now.day, E1.date) ==> s.upcomingEvents == 3) &&
      (!LexLess(now.day, E3.date) ==> s.upcomingEvents == 0)
  {
    OwnCatalog();
    OwnStats();
    Date1Before2();
    Date2Before3();
    UpcomingOfThree(E1, E2, E3, now);
  }

  /** Three events in date order are all upcoming before the first date, and none is from the last date on. */
  lemma UpcomingOfThree(a: Event, b: Event, c: Event, now: OrganizerProfile.Now)
    requires LexLess(a.date, b.date) && LexLess(b.date, c.date)
    ensures LexLess(now.day, a.date) ==> Filter([a, b, c], OrganizerProfile.Upcoming(now)) == [a, b, c]
    ensures !LexLess(now.day, c.date) ==> Filter([a, b, c], OrganizerProfile.Upcoming(now)) == []
  {
    FilterThree(a, b, c, OrganizerProfile.Upcoming(now));
    if LexLess(now.day, a.date) {
      LexLessTransitive(now.day, a.date, b.date);
      LexLessTransitive(now.day, b.date, c.date);
    }
    if !LexLess(now.day, c.date) {
      LexLessAsymmetric(b.date, c.date);
      NotLexLessTransitive(b.date, c.date, now.day);
      LexLessAsymmetric(a.date, b.date);
      NotLexLessTransitive(a.date, b.date, now.day);
    }
  }

  /** With its default criteria and sort the listing page shows the catalog exactly as it is. */
  lemma DefaultListingIsCatalog()
    ensures EventListing.ListingResult(DefaultCriteria, EventListing.DefaultSortBy) == MockEvents
  {
    EventListing.DefaultListing();
    CatalogDateOrder();
  }

  lemma OnlineFirstThird()
    ensures DatesAscend([E2, E3, E5])
  {
    Date2Before3(); Date3Before4(); Date4Before5();
    LexLessTransitive(E3.date, E4.date, E5.date);
    ThreeAscend(E2, E3, E5);
  }

  lemma OnlineSecondThird()
    ensures DatesAscend([E7, E9, E12])
  {
    Date7Before8(); Date8Before9(); Date9Before10(); Date10Before11(); Date11Before12();
    LexLessTransitive(E7.date, E8.date, E9.date);
    LexLessTransitive(E9.date, E10.date, E11.date);
    LexLessTransitive(E9.date, E11.date, E12.date);
    ThreeAscend(E7, E9, E12);
  }

  lemma OnlineDatesAscend()
    ensures DatesAscend([E2, E3, E5] + [E7, E9, E12])
  {
    OnlineFirstThird();
    OnlineSecondThird();
    Date5Before6(); Date6Before7();
    LexLessTransitive(E5.date, E6.date, E7.date);
    JoinAscend([E2, E3, E5], [E7, E9, E12]);
  }

  /** The `Online` chip under the default `date-asc` sort lists the events 2, 3, 5, 7, 9 and 12 in that order. */
  lemma OnlineByDate()
    ensures EventListing.ListingResult(Criteria("", "Online", "All", "All", "All"), "date-asc") == [E2, E3, E5, E7, E9, E12]
  {
    OnlineCatalog();
    OnlineDatesAscend();
    assert [E2, E3, E5] + [E7, E9, E12] == [E2, E3, E5, E7, E9, E12];
    AscendingDates([E2, E3, E5, E7, E9, E12]);
  }

  /** The specialty `Cardiology` sorted by title is the fourth event alone. */
  lemma CardiologyByTitle()
    ensures EventListing.ListingResult(Criteria("", "All", "All", "All", "Cardiology"), "title") == [E4]
  {
    CardiologyCatalog();
    assert Sorting.Sort(Comparator(SortKeyOf("title")), [E4]) == [E4];
  }
}
