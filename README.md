# Sahaj CME prototype — a verified model

This is a Dafny model of the web prototype for continuing-medical-education (CME) events. The application has two roles:

- A **doctor** sees a home page with credit progress and a badge teaser. They also see the achievements page (badges grouped by category) and the passbook (certificates, filter chips, total hours and a renewal-pack export).
- An **organizer** discovers events and also opens the create-event wizard from the same page. They also have a profile with stats over their own events.

A public event page at `/event/<id>` is shared between the two roles. All data is a compiled-in mock catalog of twelve events, seven badges and six certificates.

The model keeps the source's own shape:

- Derived values become pure functions: filters, sorts, lookups, chips, the slug and the route table.
- React state that handlers update becomes a class whose methods modify its fields. This covers the shell's role, the organizer page's tab, the wizard's step, flag and form, the passbook's filter and export sheet, and the achievements and home sheets.
- Navigation is returned as the target path.
- The sort on a fresh copy (`[...filtered].sort(cmp)`) is a method. It runs an in-place insertion sort on a local array. It is proved equal to a pure stable `Sort`, whose order, permutation and stability are proved as lemmas.

Modules, one per source file plus shared pieces:

- `Wrappers` (`Option`), `Strings` (ASCII lower-casing, `includes`, `startsWith`, whitespace, lexicographic order), `Seqs` (filter, find, map-where, sums) and `Sorting` (the stable sort) are shared pieces.
- `MockData` and `DoctorMockData` hold the records and seed constants.
- `EventQuery` holds the search/format/council/specialty predicates and the comparator shared by both discovery pages.
- The page modules are `OrganizerEvents`, `EventListing`, `CreateEvent`, `DoctorPassbook`, `PublicEventPage`, `OrganizerProfile`, `DoctorAchievements` and `DoctorHome`, plus `App` and `EventCard`.
- `SeedCatalog` and `DoctorSeed` prove what the pages compute on the seed data.

Modelling choices:

- ISO `YYYY-MM-DD` dates are compared as strings, whose lexicographic order is chronological.
- `localeCompare` is lexicographic order on characters.
- `toLowerCase` folds ASCII letters only; `\s` is ASCII whitespace.
- Hours and credits are exact `real`s.
- `new Date()` is a parameter `now`: a UTC day and whether time has passed since its midnight.
- `Date.now()` ids and avatar seeds are parameters.

The code is followed where the design description differs from it. In particular, the search query is **not trimmed**: `EventQuery.MatchesSearch` uses the query as typed, exactly as both pages' `filter` callbacks do.

## Model

| member | source | states |
|---|---|---|
| EventQuery.EmptyQueryMatches | src/pages/OrganizerEvents.tsx:56-57 | the empty query matches every event, since every string includes the empty string and nothing is trimmed |
| EventQuery.SearchIgnoresCase | src/pages/OrganizerEvents.tsx:56-57 | two queries with the same lower-case form match exactly the same events |
| EventQuery.SearchWithoutSubtitle | src/pages/EventListing.tsx:25 | an event without a subtitle matches a query iff its lower-cased title contains the lower-cased query at some position |
| EventQuery.ComparatorIsStrictWeakOrder | src/pages/OrganizerEvents.tsx:69-80 | each of the four comparator cases (date-asc, date-desc, title, default) is a strict weak order, so the sort is well defined |
| EventQuery.SortEventsSpec | src/pages/OrganizerEvents.tsx:69-80 | the sorted list is a permutation of its input, ordered by the comparator, and stable: the events tying with any event keep their input order |
| EventQuery.DateTie | src/pages/OrganizerEvents.tsx:71-74 | under a date key two events tie exactly when their dates are equal |
| EventQuery.TitleTie | src/pages/OrganizerEvents.tsx:75-76 | under `title` two events tie exactly when their titles are equal |
| EventQuery.DateAscNonDecreasing | src/pages/OrganizerEvents.tsx:71-72 | the `date-asc` output is non-decreasing by date |
| EventQuery.DateDescNonIncreasing | src/pages/OrganizerEvents.tsx:73-74 | the `date-desc` output is non-increasing by date |
| EventQuery.TitleNonDecreasing | src/pages/OrganizerEvents.tsx:75-76 | the `title` output is non-decreasing by title |
| EventQuery.UnknownKeyKeepsOrder | src/pages/OrganizerEvents.tsx:77-78 | any sort key other than the three known ones leaves the order unchanged |
| EventQuery.AscendingDates | src/pages/OrganizerEvents.tsx:71-74 | a list with strictly ascending dates is kept by `date-asc` and reversed by `date-desc` |
| Sorting.SortSpec | src/pages/OrganizerEvents.tsx:69 | for a strict weak order the sorted sequence is ordered and is a permutation of the input |
| Sorting.SortStable | src/pages/OrganizerEvents.tsx:69 | elements the comparator calls equal appear in the sorted sequence in their input order |
| Sorting.SortIdentity | src/pages/OrganizerEvents.tsx:69 | an already ordered input comes back unchanged |
| Sorting.SortReverses | src/pages/OrganizerEvents.tsx:69 | an input whose every element belongs after every later one comes back reversed |
| Sorting.InsertInPlace | src/pages/OrganizerEvents.tsx:69 | one insertion step on the array leaves its prefix equal to the element inserted into the sorted prefix, and the rest of the array untouched |
| Sorting.SortedCopy | src/pages/OrganizerEvents.tsx:69 | sorting a fresh array copy of the list returns the stable sort of the list, and the list itself is never changed |
| OrganizerEvents.FilteredEventsSpec | src/pages/OrganizerEvents.tsx:55-66 | an event is kept iff all five predicates hold, each occurrence as often as in the catalog, and the result is an order-preserving subsequence |
| OrganizerEvents.FilterOrderIrrelevant | src/pages/OrganizerEvents.tsx:55-66 | filtering by location first and then by the other four predicates gives the same list |
| OrganizerEvents.OnlineLocation | src/pages/OrganizerEvents.tsx:61-63 | location `Online` keeps exactly the events whose city is `Online` or whose format is Online |
| OrganizerEvents.CityLocation | src/pages/OrganizerEvents.tsx:61-63 | any other location except `All` keeps exactly the events in that city |
| OrganizerEvents.TabFor | src/pages/OrganizerEvents.tsx:16 | the tab is `create` iff the path is `/organizer/create`, and `discover` otherwise |
| OrganizerEvents.TabTarget | src/pages/OrganizerEvents.tsx:40-47 | `discover` navigates to `/organizer/events`, any other tab to `/organizer/create` |
| OrganizerEvents.TabRoundTrip | src/pages/OrganizerEvents.tsx:36-47 | arriving at a tab's target path selects that tab again, for both tabs |
| OrganizerEvents.OrganizerEventsPage.constructor | src/pages/OrganizerEvents.tsx:16-26 | the page starts on the tab of its path, not loading, with the default criteria, location `All` and sort `date-asc` |
| OrganizerEvents.OrganizerEventsPage.OnPathnameChange | src/pages/OrganizerEvents.tsx:35-38 | a path change sets only the tab |
| OrganizerEvents.OrganizerEventsPage.HandleTabChange | src/pages/OrganizerEvents.tsx:40-47 | the tab becomes the clicked one and the page navigates to its target; nothing else changes |
| OrganizerEvents.OrganizerEventsPage.HandleCreateEvent | src/pages/OrganizerEvents.tsx:49-52 | the tab becomes `create` and the page navigates to `/organizer/create` |
| OrganizerEvents.OrganizerEventsPage.HandleEventClick | src/pages/OrganizerEvents.tsx:82-90 | loading starts and the event's public page is opened with the current path as referrer |
| OrganizerEvents.OrganizerEventsPage.SortedEvents | src/pages/OrganizerEvents.tsx:55-80 | the page's list is the catalog filtered by the current criteria, then sorted by the current key |
| EventListing.ListingFilterSpec | src/pages/EventListing.tsx:23-31 | an event is kept iff search, format, council and specialty all hold; there is no location predicate; the result is a subsequence |
| EventListing.QueryNarrows | src/pages/EventListing.tsx:24-25 | the result for any query is a subsequence of the result for the empty query with the same other criteria |
| EventListing.SelectionNarrows | src/pages/EventListing.tsx:26-28 | choosing a specific format, council or specialty instead of `All` keeps a subsequence |
| EventListing.CaseInsensitive | src/pages/EventListing.tsx:24-25 | two queries with the same lower-case form give identical results |
| EventListing.SameAsOrganizerPage | src/pages/EventListing.tsx:23-45 | with location `All` the listing's filter-and-sort result equals the organizer page's for the same criteria and key |
| EventListing.ResultNoun | src/pages/EventListing.tsx:241 | the noun is `event` iff exactly one event is found, and `events` otherwise |
| EventListing.DefaultListing | src/pages/EventListing.tsx:10-45 | with its initial criteria the page lists the whole catalog sorted `date-asc` |
| CreateEvent.GetField | src/pages/CreateEvent.tsx:15-37 | every field of the form reads as a value of the type the form declares for it |
| CreateEvent.UpdateFieldOnlyChangesField | src/pages/CreateEvent.tsx:46-48 | after `updateField(f, v)` field `f` reads `v` and every other field reads as before |
| CreateEvent.UpdateFieldSameValue | src/pages/CreateEvent.tsx:46-48 | writing back a field's current value leaves the form unchanged |
| CreateEvent.AddAgendaItemSpec | src/pages/CreateEvent.tsx:61-70 | adding appends exactly one row (given id, empty strings, 60 minutes) and keeps the earlier rows |
| CreateEvent.EditAgendaItem | src/pages/CreateEvent.tsx:72-76 | editing a field of a row never changes its id |
| CreateEvent.UpdateAgendaItemSpec | src/pages/CreateEvent.tsx:72-76 | update-by-id keeps the length and every id, edits the rows with that id and keeps the others |
| CreateEvent.UpdateAgendaItemIdempotent | src/pages/CreateEvent.tsx:72-76 | repeating an update is the same as doing it once |
| CreateEvent.RemoveAgendaItemSpec | src/pages/CreateEvent.tsx:78-80 | remove-by-id deletes exactly the rows with that id and keeps every other row, as often as before, in order |
| CreateEvent.RemoveAfterUpdateAgenda | src/pages/CreateEvent.tsx:72-80 | removing a row after editing it is the same as removing it |
| CreateEvent.AddThenRemoveAgenda | src/pages/CreateEvent.tsx:61-80 | adding a row with a fresh id and removing it again restores the agenda |
| CreateEvent.AddFacultyMemberSpec | src/pages/CreateEvent.tsx:82-91 | adding appends exactly one member with the given id, role Speaker, empty name and affiliation and an avatar, and keeps the others |
| CreateEvent.EditFacultyMember | src/pages/CreateEvent.tsx:93-97 | editing a member never changes its id |
| CreateEvent.UpdateFacultyMemberSpec | src/pages/CreateEvent.tsx:93-97 | update-by-id keeps the length and every id, edits the members with that id and keeps the others |
| CreateEvent.RemoveFacultyMemberSpec | src/pages/CreateEvent.tsx:99-101 | remove-by-id deletes exactly the members with that id and keeps the others in order |
| CreateEvent.RemoveAfterUpdateFaculty | src/pages/CreateEvent.tsx:93-101 | removing a member after editing it is the same as removing it |
| CreateEvent.AddThenRemoveFaculty | src/pages/CreateEvent.tsx:82-101 | adding a member with a fresh id and removing it again restores the faculty |
| CreateEvent.StepValidity | src/pages/CreateEvent.tsx:103-116 | step 4 is always valid, any number outside 1 to 4 never is, step 2 iff agenda and faculty are non-empty, step 3 iff a policy is chosen and COI acknowledged |
| CreateEvent.ChecklistMatchesGate | src/pages/CreateEvent.tsx:639-645 | all five checklist rows are ticked iff the form can be published |
| CreateEvent.InitialFormNotPublishable | src/pages/CreateEvent.tsx:15-37 | the blank form cannot be published: step 1 is invalid, step 4 valid |
| CreateEvent.GateIgnoresOtherFields | src/pages/CreateEvent.tsx:103-118 | editing a field that no step checks leaves `canPublish` as it was |
| CreateEvent.RemovingLastRowClosesGate | src/pages/CreateEvent.tsx:103-118 | removing the only agenda row makes the form unpublishable |
| CreateEvent.DropSpaces | src/pages/CreateEvent.tsx:663 | dropping leading whitespace gives a no-longer string that does not start with whitespace |
| CreateEvent.Dashify | src/pages/CreateEvent.tsx:663 | replacing whitespace runs by `-` leaves no whitespace, never lengthens, is empty iff the input is, and adds no character but `-`; its value is fixed by the lemmas below |
| CreateEvent.DashifyWord | src/pages/CreateEvent.tsx:663 | a word without whitespace stays as it is, in place, in front of whatever follows |
| CreateEvent.DashifyWordThenRun | src/pages/CreateEvent.tsx:663 | a word, a whitespace run and a rest become the word, one dash and the dashified rest; with DashifyWord this decides `replace(/\s+/g, '-')` on every string |
| CreateEvent.DashifyRun | src/pages/CreateEvent.tsx:663 | a whole run of whitespace before a word becomes a single dash |
| CreateEvent.DashifyNoSpace | src/pages/CreateEvent.tsx:663 | a string without whitespace comes back unchanged |
| CreateEvent.DashifyNoUpper | src/pages/CreateEvent.tsx:663 | dashifying a string without upper-case letters introduces none |
| CreateEvent.SlugShape | src/pages/CreateEvent.tsx:663 | the slug is never empty, has no whitespace and no upper-case letter, and is `untitled` whenever the title is empty |
| CreateEvent.SlugIdempotent | src/pages/CreateEvent.tsx:663 | the slug of a slug is itself |
| CreateEvent.SlugIgnoresCase | src/pages/CreateEvent.tsx:663 | titles with the same lower-case form have the same slug |
| CreateEvent.LowerKeepsSpaces | src/pages/CreateEvent.tsx:663 | `toLowerCase` keeps every whitespace character in place and turns no other character into one |
| CreateEvent.SlugOneWord | src/pages/CreateEvent.tsx:663 | a one-word title slugs to the word in lower case |
| CreateEvent.SlugWordThenRun | src/pages/CreateEvent.tsx:663 | a title opening with a word and a whitespace run slugs to the lower-case word, one dash and the dashified lower-case rest |
| CreateEvent.CopiedUrlAsWrittenMismatch | src/pages/CreateEvent.tsx:669 | for an empty title the Copy button writes an address ending in `/event/`, not the displayed one |
| CreateEvent.CopiedUrlAgreement | src/pages/CreateEvent.tsx:663-669 | the address Copy writes as written equals the displayed address made absolute iff the title is non-empty |
| CreateEvent.CopiedUrlShape | src/pages/CreateEvent.tsx:663-669 | the corrected copied address is the site's event prefix followed by a non-empty, whitespace-free slug |
| CreateEvent.CreateEventWizard.constructor | src/pages/CreateEvent.tsx:10-37 | the wizard opens on step 1, unpublished, with the blank form |
| CreateEvent.CreateEventWizard.UpdateField | src/pages/CreateEvent.tsx:46-48 | the form becomes the old form with that one field set; step and flag are unchanged |
| CreateEvent.CreateEventWizard.AddAgendaRow | src/pages/CreateEvent.tsx:61-70 | only the agenda changes, by appending the new row |
| CreateEvent.CreateEventWizard.UpdateAgendaRow | src/pages/CreateEvent.tsx:72-76 | only the agenda changes, by the update-by-id |
| CreateEvent.CreateEventWizard.RemoveAgendaRow | src/pages/CreateEvent.tsx:78-80 | only the agenda changes, by the remove-by-id |
| CreateEvent.CreateEventWizard.AddFacultyRow | src/pages/CreateEvent.tsx:82-91 | only the faculty changes, by appending the new member |
| CreateEvent.CreateEventWizard.UpdateFacultyRow | src/pages/CreateEvent.tsx:93-97 | only the faculty changes, by the update-by-id |
| CreateEvent.CreateEventWizard.RemoveFacultyRow | src/pages/CreateEvent.tsx:99-101 | only the faculty changes, by the remove-by-id |
| CreateEvent.CreateEventWizard.HandlePublish | src/pages/CreateEvent.tsx:118-125 | the event becomes published iff it already was or the form can be published; a published event stays published; nothing else changes |
| CreateEvent.CreateEventWizard.Back | src/pages/CreateEvent.tsx:700-701 | the step becomes `max(1, step - 1)` and stays within 1 to 4 |
| CreateEvent.CreateEventWizard.Next | src/pages/CreateEvent.tsx:707-709 | the step becomes `min(4, step + 1)` and stays within 1 to 4 |
| CreateEvent.CreateEventWizard.GoToStep | src/pages/CreateEvent.tsx:175 | a step button selects any of the four steps, valid or not |
| CreateEvent.CreateEventWizard.OpenPublicPage | src/pages/CreateEvent.tsx:679-690 | once published, the button opens `/event/` followed by the clock stamp, a public page outside the shell, which the route table renders as the public page of that stamp |
| DoctorPassbook.AllAndSpeakerKeepEverything | src/pages/DoctorPassbook.tsx:22-28 | `all`, and `speaker` which has no branch, keep every certificate |
| DoctorPassbook.FilterSelects | src/pages/DoctorPassbook.tsx:24-26 | `DMC` and `RMC` keep exactly that council's certificates in order, and `locked` exactly the pending ones |
| DoctorPassbook.FilterCertificatesSpec | src/pages/DoctorPassbook.tsx:22-28 | every filter keeps an order-preserving subsequence, and a certificate is shown iff it passes |
| DoctorPassbook.TotalHoursSplitsByFilter | src/pages/DoctorPassbook.tsx:54 | the header total is the shown hours plus the hidden hours, for every filter, so it does not depend on the filter |
| DoctorPassbook.TotalHoursByCouncil | src/pages/DoctorPassbook.tsx:54 | when every certificate is DMC or RMC, the total is the DMC hours plus the RMC hours |
| DoctorPassbook.PassbookPage.constructor | src/pages/DoctorPassbook.tsx:11-15 | the page starts with filter `all`, no council, sheet and quick view closed, nothing selected |
| DoctorPassbook.PassbookPage.SetFilter | src/pages/DoctorPassbook.tsx:71-95 | a chip sets only the filter |
| DoctorPassbook.PassbookPage.HandleCertificateClick | src/pages/DoctorPassbook.tsx:17-20 | the certificate is selected and the quick view opens; nothing else changes |
| DoctorPassbook.PassbookPage.SetExportSheetOpen | src/pages/DoctorPassbook.tsx:173 | opening or closing the export sheet changes only that flag |
| DoctorPassbook.PassbookPage.SelectCouncil | src/pages/DoctorPassbook.tsx:186-207 | a council button sets only the selected council |
| DoctorPassbook.PassbookPage.HandleExport | src/pages/DoctorPassbook.tsx:30-42 | without a council the error is reported and the sheet stays as it was; with one the pack is reported for it and the sheet closes; either way the council ends up unset |
| PublicEventPage.FindEventSpec | src/pages/PublicEventPage.tsx:12 | the lookup returns the first event carrying the id, and nothing exactly when no event carries it |
| PublicEventPage.FindEventUnique | src/pages/PublicEventPage.tsx:12 | when ids are distinct, looking up an event's id returns that event |
| PublicEventPage.ViewFor | src/pages/PublicEventPage.tsx:26-40 | the not-found branch is taken iff the lookup finds nothing; otherwise the event shown has the route id |
| PublicEventPage.FindAfterPublish | src/pages/PublicEventPage.tsx:12 | after appending an event with a new id, looking up that id finds it, and any other id finds what it found before |
| PublicEventPage.ViewAfterPublish | src/pages/PublicEventPage.tsx:12-40 | once a published event joins the looked-up events under a new id, its page shows it, and every other page is unchanged |
| PublicEventPage.Referrer | src/pages/PublicEventPage.tsx:15 | the referrer is the state's non-empty `from`, and `/` otherwise, so never empty |
| PublicEventPage.BackTarget | src/pages/PublicEventPage.tsx:17-24 | a referrer under `/organizer` goes back to `/organizer/events`; any other is used as it is |
| PublicEventPage.BackTargetStable | src/pages/PublicEventPage.tsx:15-24 | the back target is never empty, and taking the back rule on it again changes nothing |
| PublicEventPage.BackFromOrganizer | src/pages/PublicEventPage.tsx:17-24 | opened from any organizer path, back leads to `/organizer/events` |
| PublicEventPage.DisplayedCredits | src/pages/PublicEventPage.tsx:181 | the credits shown are the event's, or 0 when it has none |
| PublicEventPage.LocationCardFor | src/pages/PublicEventPage.tsx:161-168 | the card shows place and city iff the location is non-empty, and "Online Event" otherwise |
| PublicEventPage.FacultyAvatar | src/pages/PublicEventPage.tsx:225 | a member's non-empty avatar is used, and the default avatar otherwise |
| OrganizerProfile.OrganizerEventsSpec | src/pages/OrganizerProfile.tsx:9-11 | the profile's events are an order-preserving subsequence holding exactly the catalog events of the three names |
| OrganizerProfile.PastExcludesUpcoming | src/pages/OrganizerProfile.tsx:92 | no event is both past and upcoming; at an event's midnight it is neither; otherwise it is one of them or on today's date |
| OrganizerProfile.AttendeeCount | src/pages/OrganizerProfile.tsx:93 | attendees are 150 without a seats count, and attendees plus seats left are 150 otherwise |
| OrganizerProfile.StatsBounds | src/pages/OrganizerProfile.tsx:13-18 | upcoming ≤ total events ≤ catalog size; attendees ≤ 150 per event when seats are non-negative; credits are non-negative when each event's are |
| OrganizerProfile.OccupancyFor | src/pages/OrganizerProfile.tsx:131 | a past event shows its attendee count, any other its seats left |
| OrganizerProfile.StatusChip | src/pages/OrganizerProfile.tsx:103-113 | a chip appears iff the event has a status; its variant is `live`, `new` or the neutral badge accordingly |
| DoctorAchievements.GroupsPartition | src/pages/DoctorAchievements.tsx:19-23 | the three groups are subsequences of the badges that together hold every badge exactly as often, so their sizes add up to the badge count |
| DoctorAchievements.UnlockedCountSpec | src/pages/DoctorAchievements.tsx:25-36 | unlocked ≤ all; unlocked plus locked is the badge count; unlocked equals the count iff every badge is unlocked |
| DoctorAchievements.AchievementsPage.constructor | src/pages/DoctorAchievements.tsx:10-11 | the page starts with no badge selected and the sheet closed |
| DoctorAchievements.AchievementsPage.HandleBadgeClick | src/pages/DoctorAchievements.tsx:13-17 | a locked badge changes nothing; an unlocked one is selected and the sheet opens |
| DoctorAchievements.AchievementsPage.SetSheetOpen | src/pages/DoctorAchievements.tsx:84 | the sheet's own open/close changes only the open flag |
| DoctorHome.UnlockedBadgesSpec | src/pages/DoctorHome.tsx:26 | at most four badges, all unlocked and from the list, that are the first unlocked badges in order (all of them when fewer than four) |
| DoctorHome.NextBadgeSpec | src/pages/DoctorHome.tsx:27 | the next badge is the first locked one, and there is none iff every badge is unlocked |
| DoctorHome.TeaserShape | src/pages/DoctorHome.tsx:164-170 | at most five tokens, of which at most one is locked; a locked one is the last and is the next badge |
| DoctorHome.HomePage.constructor | src/pages/DoctorHome.tsx:18-19 | no certificate selected, quick view closed |
| DoctorHome.HomePage.HandleCertificateClick | src/pages/DoctorHome.tsx:21-24 | the certificate is selected and the quick view opens |
| App.CurrentRole | src/App.tsx:23 | the role is organizer iff the path starts with `/organizer`, doctor otherwise |
| App.RoleChangeRoundTrip | src/App.tsx:41-53 | each role's home path reads that role back, the host path reads organizer, and neither is a public page |
| App.PublicRouteSkipsShell | src/App.tsx:55-59 | a path routed to a public event page starts with `/event/`, so it skips the shell, and is `/event/` followed by the id |
| App.PublicRouteRoundTrip | src/App.tsx:216 | for every one-segment id, `/event/` + id routes to that id's public page |
| App.BareEventPathRedirects | src/App.tsx:216-218 | `/event/` with no id skips the shell but is redirected to `/` |
| App.SettingsRedirect | src/App.tsx:217-218 | both navigations' settings paths and the preview path redirect to `/` |
| App.OrganizerTabsSharePage | src/App.tsx:192-207 | `/organizer/create` and `/organizer/events` render the same page |
| App.NavItemsConsistent | src/App.tsx:61-75 | every item of a role's navigation leads to a path of that role, and at most one item is active on any path |
| App.AppShell.constructor | src/App.tsx:23-24 | the shell's role starts as the role of the path |
| App.AppShell.OnPathChange | src/App.tsx:27-29 | after a path change the role is the path's; the source effect runs only when the derived role changes, which gives the same role because both handlers navigate to a path of the role they set (App.RoleChangeRoundTrip) |
| App.AppShell.HandleRoleChange | src/App.tsx:41-48 | the role becomes the chosen one and the target path reads that role back |
| App.AppShell.HandleSwitchToOrganizer | src/App.tsx:50-53 | the role becomes organizer and the target is `/organizer/create`, a path of the organizer role; the home page's "Host a CME" button reaches it through the props the shell passes (App.tsx:151-156) |
| App.AppShell.HandleNavigateToAchievements | src/App.tsx:151-155 | the achievements link the shell hands to the home page opens `/achievements`, the achievements page, in the doctor role |
| EventCard.StatusChipFor | src/components/EventCard.tsx:53-58 | the LIVE chip iff status live, NEW iff new; nothing for pending, closed or no status |
| EventCard.PlaceLabelFor | src/components/EventCard.tsx:80-94 | the city label iff the city is non-empty; `Online` iff there is no city and the format is Online; otherwise neither |
| EventCard.SeatsChipValues | src/components/EventCard.tsx:105 | the seats chip shows for exactly two, three or four seats left |
| EventCard.ZeroCreditsLeaveStrayZero | src/components/EventCard.tsx:111-115 | as written, an event with zero credits renders a bare "0" instead of no chip |
| EventCard.CreditsSlotFor | src/components/EventCard.tsx:111-115 | the intended slot never renders stray text, and shows the chip iff credits are present and non-zero |
| EventCard.CreditsSlotsAgree | src/components/EventCard.tsx:111-115 | the as-written and intended slots agree on every event except those with zero credits |
| EventCard.ShareLinkOpensPublicPage | src/components/EventCard.tsx:24 | the share link is the origin followed by a path that routes to this event's public page |
| SeedCatalog.CatalogIds | src/lib/mockData.ts:45-325 | the catalog holds twelve events with ids `1` to `12` in order |
| SeedCatalog.CatalogIdsDistinct | src/lib/mockData.ts:45-325 | no two catalog events share an id |
| SeedCatalog.CatalogLookup | src/lib/mockData.ts:45-325 | the public page finds every catalog event at its own id |
| SeedCatalog.CatalogNotFound | src/pages/PublicEventPage.tsx:26-40 | the not-found state is shown iff the id is not one of `1` to `12` (so for `999`) |
| SeedCatalog.CatalogIdsShort | src/lib/mockData.ts:45-325 | no catalog event has an id longer than two characters |
| SeedCatalog.PublishedPageNotFound | src/pages/CreateEvent.tsx:687 | as written: the page "Open Public Page" opens, for any stamp longer than two characters (every `Date.now()` value), shows "Event not found" |
| SeedCatalog.PublishedPageShown | src/pages/CreateEvent.tsx:685-687 | as intended: with the published event added to the catalog under the stamp, its page shows it and every catalog page is unchanged |
| SeedCatalog.CatalogAscends | src/lib/mockData.ts:50-310 | the catalog's dates ascend strictly in array order |
| SeedCatalog.CatalogDateOrder | src/lib/mockData.ts:50-310 | `date-asc` returns the catalog unchanged and `date-desc` returns it reversed |
| SeedCatalog.DefaultListingIsCatalog | src/pages/EventListing.tsx:10-45 | with its initial state the listing shows the catalog exactly as it is |
| SeedCatalog.MissesEcmo | src/pages/EventListing.tsx:24-25 | an event whose lower-cased title and subtitle never have `c` before `m` does not match `ECMO` |
| SeedCatalog.Event3MatchesEcmo | src/lib/mockData.ts:115-116 | the third event matches `ECMO` |
| SeedCatalog.OnlineCatalog | src/lib/mockData.ts:87-313 | the format `Online` keeps exactly the events 2, 3, 5, 7, 9 and 12 |
| SeedCatalog.OnlineByDate | src/lib/mockData.ts:84-313 | the `Online` result sorted `date-asc` is the events 2, 3, 5, 7, 9, 12 in that order |
| SeedCatalog.EcmoCatalog | src/lib/mockData.ts:115-116 | the query `ECMO` keeps only the third event |
| SeedCatalog.CardiologyCatalog | src/lib/mockData.ts:151 | the specialty `Cardiology` keeps only the fourth event |
| SeedCatalog.CardiologyByTitle | src/lib/mockData.ts:135-151 | `Cardiology` sorted by title is the fourth event alone |
| SeedCatalog.RmcCatalog | src/lib/mockData.ts:169-301 | the council `RMC` keeps the events 5, 9 and 11 |
| SeedCatalog.DelhiCatalog | src/lib/mockData.ts:55-270 | the organizer page's location `Delhi` keeps the events 1 and 10 |
| SeedCatalog.MumbaiCatalog | src/lib/mockData.ts:185-292 | location `Mumbai` keeps the events 6 and 11 |
| SeedCatalog.OwnCatalog | src/lib/mockData.ts:57-129 | the profile's three names own exactly the events 1, 2 and 3 |
| SeedCatalog.OwnStats | src/lib/mockData.ts:57-129 | those events count 382 attendees and 14 credits |
| SeedCatalog.CatalogStats | src/pages/OrganizerProfile.tsx:13-18 | the profile's stats on the catalog are 3 events, 382 attendees and 14 credits; all 3 are upcoming before the first event's day, none from the third's |
| SeedCatalog.UpcomingOfThree | src/pages/OrganizerProfile.tsx:17 | three events in date order are all upcoming before the first date and none is upcoming from the last date on |
| DoctorSeed.UnlockedSeed | src/lib/doctorMockData.ts:21-82 | the unlocked badges are 1 to 4 |
| DoctorSeed.LockedSeed | src/lib/doctorMockData.ts:21-82 | the locked badges are 5, 6 and 7 |
| DoctorSeed.UnlockedCountSeed | src/lib/doctorMockData.ts:21-82 | seven badges, four of them unlocked |
| DoctorSeed.CoreSeed | src/lib/doctorMockData.ts:21-82 | the core group is badges 1, 2, 3 and 5 |
| DoctorSeed.ContributionSeed | src/lib/doctorMockData.ts:21-82 | the contribution group is badge 4 |
| DoctorSeed.ComplianceSeed | src/lib/doctorMockData.ts:21-82 | the compliance group is badges 6 and 7 |
| DoctorSeed.GroupsSeed | src/lib/doctorMockData.ts:21-82 | the achievements page's groups are core {1,2,3,5}, contribution {4}, compliance {6,7} |
| DoctorSeed.NextBadgeSeed | src/lib/doctorMockData.ts:58-65 | the next badge is badge 5, `Full Cycle` |
| DoctorSeed.TeaserSeed | src/pages/DoctorHome.tsx:164-170 | the home teaser shows badges 1 to 4 and then badge 5 |
| DoctorSeed.AllCertificatesSeed | src/lib/doctorMockData.ts:127-149 | all certificates are the four recent ones followed by certificates 5 and 6 |
| DoctorSeed.LockedCertificatesSeed | src/lib/doctorMockData.ts:111 | `locked` shows only certificate 3 |
| DoctorSeed.RmcCertificatesSeed | src/lib/doctorMockData.ts:109-143 | `RMC` shows certificates 3 and 6 |
| DoctorSeed.DmcCertificatesSeed | src/lib/doctorMockData.ts:84-144 | `DMC` shows certificates 1, 2, 4 and 5 |
| DoctorSeed.TotalHoursSeed | src/lib/doctorMockData.ts:9-149 | the passbook total is 18.5 hours, the profile's current credits, leaving 11.5 of the 30 |

## Left out

- Rendering, styling and the presentational components are not modelled. This covers the chip, chevron row, role switcher, page header, loading screen, next-action chip, achievement card, event preview, quick-view layout and the progress ring. Only the badge and certificate record types are kept.
- Toasts, `navigator.clipboard`, `window.scrollTo` and the scroll listener behind the condensed top bar (`isScrolled`) are side effects. They are not modelled: the model returns the text that would be written and the target that would be navigated to.
- The cover-image upload through `FileReader` is browser I/O and is not modelled. The form's cover image is an `Option` set through `UpdateField`.
- The two-second delay before the event page opens is not modelled; `HandleEventClick` sets loading and returns the navigation at once. The poster-generation timer and the loading delay are likewise out of the model.
- `Date.now()` ids and avatar seeds, and `new Date()`, are parameters: the clock is outside the model.
- `toLocaleDateString` and every other locale-dependent format are not modelled.
- `localeCompare` is lexicographic character order. Lower-casing and `\s` cover ASCII only; Unicode case folding and Unicode whitespace are not modelled.
- Floating-point arithmetic is not modelled. Hours and credits are exact reals. The progress ring, the percentages and the home page's projected completion date are left out.
- The date-range chips are not modelled: their state is never read by any filter, so the field is carried in `EventQuery.Criteria` and ignored.
- Invalid date strings, whose `getTime()` is NaN, are not modelled; the dates are assumed to be ISO `YYYY-MM-DD`. The same goes for a NaN agenda duration from `parseInt`.
- The pagination buttons have no behaviour and are not modelled.
- App.Route: a simplification of React Router. `App.Route` matches paths exactly and case-sensitively, while React Router v6 matches case-insensitively and accepts a trailing slash, so `/Passbook` and `/passbook/` render the passbook in the source but redirect to `/` in the model. Other router internals are not modelled either.
- CreateEvent.UpdateField requires the value to have the field's declared type (`Fits`). The source's `value: any` would also accept ill-typed values, which the model cannot represent.
- The faculty role is the three-valued enumeration of the event records, which is what the role select offers. A free-text role is not representable.
- The criteria setters of the two discovery pages (search box, chips, selects) are plain assignments and are not separate methods: `OrganizerEventsPage` holds the criteria as fields and `EventListing` takes them as arguments.
- The credit breakdown seed (`creditsBreakdown`) is display-only and is not modelled. Its totals do not follow from the certificates.
- The shell's prop replacement (`React.cloneElement` at App.tsx:151-156) is not modelled as such. The no-op props of the home route (App.tsx:172) never reach the page, and the two handlers it passes in are `App.AppShell.HandleSwitchToOrganizer` and `App.AppShell.HandleNavigateToAchievements`.
- The step indicator's colours and the on-step "valid" styling are not modelled; only the validity they display is (`CreateEvent.IsStepValid`).
- The events' cover-image URLs are not part of `MockData.Event`, because no logic reads them.
- `src/components/ui/*` (buttons, sheets, tabs) is not part of this model.

## Findings

| source | as written | input that shows it | evidently intended | confidence | as-written member | corrected member |
|---|---|---|---|---|---|---|
| src/components/EventCard.tsx:111-115 | `{event.estimatedCredits && <Chip/>}` renders the number itself when credits are `0`, so a bare "0" appears among the chips | an event with `estimatedCredits: 0` | no credits chip and no stray text for zero credits | not executed | EventCard.ZeroCreditsLeaveStrayZero | EventCard.CreditsSlotFor |
| src/pages/CreateEvent.tsx:669 | the Copy button writes the dashified title without the `'untitled'` fallback that the displayed URL at line 663 has | an empty title: Copy writes `https://sahajcme.com/event/`, while the field shows `sahajcme.com/event/untitled` | copy the address the field displays | not executed | CreateEvent.CopiedUrlAsWrittenMismatch | CreateEvent.CopiedUrlShape |
| src/pages/CreateEvent.tsx:687 | "Open Public Page" navigates to `/event/${Date.now()}`, but the published form is never added to `mockEvents`, which is where the public page looks events up (PublicEventPage.tsx:12) | publish any event and press "Open Public Page": the stamp, say `1731000000000`, is no catalog id, and the page shows "Event not found" | the page of the event just published, which line 685 calls "now live and visible to attendees" | not executed | SeedCatalog.PublishedPageNotFound | SeedCatalog.PublishedPageShown |
