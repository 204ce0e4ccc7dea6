/**
 * The create-event wizard: a form record edited field by field, agenda and
 * faculty lists edited by id, per-step validity and the publish gate, the
 * public-URL slug, and the step and publish state.
 *
 * `Date.now()` ids and avatar seeds are parameters. The faculty role is
 * the three-valued role of the event records, which is what the role
 * select offers; the cover image is the data URL, or `None` for `null`.
 */
module CreateEvent {
  import opened Wrappers
  import opened Strings
  import opened Seqs
  import MockData
  import App

  // ----------------------------------------------------------------- form

  datatype FormData = FormData(
    title: string,
    subtitle: string,
    date: string,
    startTime: string,
    endTime: string,
    format: string,
    location: string,
    city: string,
    coverImage: Option<string>,
    organizerName: string,
    organizerAvatar: string,
    autoPoster: bool,
    description: string,
    agenda: seq<MockData.AgendaItem>,
    faculty: seq<MockData.FacultyMember>,
    streamingLink: string,
    council: string,
    advertisingPolicy: string,
    coiAcknowledged: bool,
    observerLink: string,
    estimatedCredits: real)

  /** The form the wizard opens with. */
  const InitialForm := FormData(
    "", "", "", "", "", "Online", "", "", None, "",
    MockData.AvatarBase + "organizer", true, "", [], [], "", "DMC", "", false, "", 3.0)

  /** The field names `updateField` is called with. */
  datatype Field =
    | Title | Subtitle | Date | StartTime | EndTime | Format | Location | City | CoverImage
    | OrganizerName | OrganizerAvatar | AutoPoster | Description | Agenda | Faculty
    | StreamingLink | Council | AdvertisingPolicy | CoiAcknowledged | ObserverLink | EstimatedCredits

  /** A value passed to `updateField`. */
  datatype Value =
    | Text(text: string)
    | Flag(flag: bool)
    | Number(number: real)
    | Image(image: Option<string>)
    | AgendaList(items: seq<MockData.AgendaItem>)
    | FacultyList(members: seq<MockData.FacultyMember>)

  /** The value has the type the form declares for the field. */
  predicate Fits(f: Field, v: Value) {
    match f
    case CoverImage => v.Image?
    case AutoPoster | CoiAcknowledged => v.Flag?
    case EstimatedCredits => v.Number?
    case Agenda => v.AgendaList?
    case Faculty => v.FacultyList?
    case _ => v.Text?
  }

  /** `formData[field]`. */
  function GetField(form: FormData, f: Field): (v: Value)
    ensures Fits(f, v)
  {
    match f
    case Title => Text(form.title)
    case Subtitle => Text(form.subtitle)
    case Date => Text(form.date)
    case StartTime => Text(form.startTime)
    case EndTime => Text(form.endTime)
    case Format => Text(form.format)
    case Location => Text(form.location)
    case City => Text(form.city)
    case CoverImage => Image(form.coverImage)
    case OrganizerName => Text(form.organizerName)
    case OrganizerAvatar => Text(form.organizerAvatar)
    case AutoPoster => Flag(form.autoPoster)
    case Description => Text(form.description)
    case Agenda => AgendaList(form.agenda)
    case Faculty => FacultyList(form.faculty)
    case StreamingLink => Text(form.streamingLink)
    case Council => Text(form.council)
    case AdvertisingPolicy => Text(form.advertisingPolicy)
    case CoiAcknowledged => Flag(form.coiAcknowledged)
    case ObserverLink => Text(form.observerLink)
    case EstimatedCredits => Number(form.estimatedCredits)
  }

  /** `{ ...prev, [field]: value }`. */
  function SetField(form: FormData, f: Field, v: Value): FormData
    requires Fits(f, v)
  {
    match f
    case Title => form.(title := v.text)
    case Subtitle => form.(subtitle := v.text)
    case Date => form.(date := v.text)
    case StartTime => form.(startTime := v.text)
    case EndTime => form.(endTime := v.text)
    case Format => form.(format := v.text)
    case Location => form.(location := v.text)
    case City => form.(city := v.text)
    case CoverImage => form.(coverImage := v.image)
    case OrganizerName => form.(organizerName := v.text)
    case OrganizerAvatar => form.(organizerAvatar := v.text)
    case AutoPoster => form.(autoPoster := v.flag)
    case Description => form.(description := v.text)
    case Agenda => form.(agenda := v.items)
    case Faculty => form.(faculty := v.members)
    case StreamingLink => form.(streamingLink := v.text)
    case Council => form.(council := v.text)
    case AdvertisingPolicy => form.(advertisingPolicy := v.text)
    case CoiAcknowledged => form.(coiAcknowledged := v.flag)
    case ObserverLink => form.(observerLink := v.text)
    case EstimatedCredits => form.(estimatedCredits := v.number)
  }

  /** After `updateField(f, v)` the field reads `v`, and every other field reads as before. */
  lemma UpdateFieldOnlyChangesField(form: FormData, f: Field, v: Value)
    requires Fits(f, v)
    ensures GetField(SetField(form, f, v), f) == v
    ensures forall g :: g != f ==> GetField(SetField(form, f, v), g) == GetField(form, g)
  {
  }

  /** Writing back the value a field already holds changes nothing. */
  lemma UpdateFieldSameValue(form: FormData, f: Field)
    ensures SetField(form, f, GetField(form, f)) == form
  {
  }

  // --------------------------------------------------------------- agenda

  /** The row `addAgendaItem` appends: empty strings and a 60-minute duration. */
  function NewAgendaItem(id: string): MockData.AgendaItem {
    MockData.AgendaItem(id, "", "", "", 60)
  }

  /** The fields `updateAgendaItem` is called with, and their new values. */
  datatype AgendaEdit =
    | SetStartTime(startTime: string)
    | SetTitle(title: string)
    | SetSpeaker(speaker: string)
    | SetDuration(duration: int)

  /** `{ ...item, [field]: value }`: the named field changes, the id never does. */
  function EditAgendaItem(item: MockData.AgendaItem, e: AgendaEdit): (r: MockData.AgendaItem)
    ensures r.id == item.id
  {
    match e
    case SetStartTime(s) => item.(startTime := s)
    case SetTitle(s) => item.(title := s)
    case SetSpeaker(s) => item.(speaker := s)
    case SetDuration(n) => item.(duration := n)
  }

  function AgendaHasId(id: string): MockData.AgendaItem -> bool {
    (item: MockData.AgendaItem) => item.id == id
  }

  function AgendaEditor(e: AgendaEdit): MockData.AgendaItem -> MockData.AgendaItem {
    (item: MockData.AgendaItem) => EditAgendaItem(item, e)
  }

  function AddAgendaItem(items: seq<MockData.AgendaItem>, id: string): seq<MockData.AgendaItem> {
    items + [NewAgendaItem(id)]
  }

  /** Adding appends exactly one blank 60-minute row with the given id and keeps the earlier rows as they were. */
  lemma AddAgendaItemSpec(items: seq<MockData.AgendaItem>, id: string)
    ensures var r := AddAgendaItem(items, id);
      |r| == |items| + 1 && r[..|items|] == items &&
      r[|items|].id == id && r[|items|].duration == 60 &&
      r[|items|].startTime == r[|items|].title == r[|items|].speaker == ""
  {
    var r := AddAgendaItem(items, id);
    assert r[..|items|] == items;
  }

  /** `agenda.map(item => item.id === id ? { ...item, [field]: value } : item)`. */
  function UpdateAgendaItem(items: seq<MockData.AgendaItem>, id: string, e: AgendaEdit): seq<MockData.AgendaItem> {
    MapWhere(items, AgendaHasId(id), AgendaEditor(e))
  }

  /** `agenda.filter(item => item.id !== id)`. */
  function RemoveAgendaItem(items: seq<MockData.AgendaItem>, id: string): seq<MockData.AgendaItem> {
    Filter(items, Not(AgendaHasId(id)))
  }

  /**
   * Updating by id keeps the length and every id, edits the items with that
   * id and leaves the others as they were.
   */
  lemma UpdateAgendaItemSpec(items: seq<MockData.AgendaItem>, id: string, e: AgendaEdit)
    ensures var r := UpdateAgendaItem(items, id, e);
      |r| == |items| &&
      (forall i :: 0 <= i < |r| ==> r[i].id == items[i].id) &&
      (forall i :: 0 <= i < |r| && items[i].id == id ==> r[i] == EditAgendaItem(items[i], e)) &&
      (forall i :: 0 <= i < |r| && items[i].id != id ==> r[i] == items[i])
  {
  }

  /** Repeating an update is the same as doing it once. */
  lemma UpdateAgendaItemIdempotent(items: seq<MockData.AgendaItem>, id: string, e: AgendaEdit)
    ensures UpdateAgendaItem(UpdateAgendaItem(items, id, e), id, e) == UpdateAgendaItem(items, id, e)
  {
    var once := UpdateAgendaItem(items, id, e);
    var twice := UpdateAgendaItem(once, id, e);
    forall i | 0 <= i < |items| ensures twice[i] == once[i] {
      if items[i].id == id {
        assert once[i].id == id;
      }
    }
  }

  /**
   * Removing by id deletes exactly the items with that id and keeps the
   * others, every occurrence of them, in their order.
   */
  lemma RemoveAgendaItemSpec(items: seq<MockData.AgendaItem>, id: string)
    ensures var r := RemoveAgendaItem(items, id);
      IsSubsequence(r, items) &&
      (forall i :: 0 <= i < |r| ==> r[i].id != id) &&
      (forall x :: multiset(r)[x] == if x.id != id then multiset(items)[x] else 0)
  {
    FilterSpec(items, Not(AgendaHasId(id)));
  }

  /** Removing an item after editing it is removing it. */
  lemma RemoveAfterUpdateAgenda(items: seq<MockData.AgendaItem>, id: string, e: AgendaEdit)
    ensures RemoveAgendaItem(UpdateAgendaItem(items, id, e), id) == RemoveAgendaItem(items, id)
  {
    RemoveAfterMapWhere(items, AgendaHasId(id), AgendaEditor(e));
  }

  /** Adding a row with a fresh id and removing it again restores the agenda. */
  lemma AddThenRemoveAgenda(items: seq<MockData.AgendaItem>, id: string)
    requires forall i :: 0 <= i < |items| ==> items[i].id != id
    ensures RemoveAgendaItem(AddAgendaItem(items, id), id) == items
  {
    var keep := Not(AgendaHasId(id));
    FilterConcat(items, [NewAgendaItem(id)], keep);
    FilterAll(items, keep);
    FilterSingleton(NewAgendaItem(id), keep);
  }

  // -------------------------------------------------------------- faculty

  /** The member `addFaculty` appends: role Speaker and an avatar seeded by the clock. */
  function NewFacultyMember(id: string, avatarSeed: string): MockData.FacultyMember {
    MockData.FacultyMember(id, "", MockData.Speaker, "", Some(MockData.AvatarBase + avatarSeed))
  }

  /** The fields `updateFaculty` is called with, and their new values. */
  datatype FacultyEdit =
    | SetName(name: string)
    | SetRole(role: MockData.FacultyRole)
    | SetAffiliation(affiliation: string)

  function EditFacultyMember(m: MockData.FacultyMember, e: FacultyEdit): (r: MockData.FacultyMember)
    ensures r.id == m.id
  {
    match e
    case SetName(s) => m.(name := s)
    case SetRole(role) => m.(role := role)
    case SetAffiliation(s) => m.(affiliation := s)
  }

  function FacultyHasId(id: string): MockData.FacultyMember -> bool {
    (m: MockData.FacultyMember) => m.id == id
  }

  function FacultyEditor(e: FacultyEdit): MockData.FacultyMember -> MockData.FacultyMember {
    (m: MockData.FacultyMember) => EditFacultyMember(m, e)
  }

  function AddFacultyMember(members: seq<MockData.FacultyMember>, id: string, avatarSeed: string): seq<MockData.FacultyMember> {
    members + [NewFacultyMember(id, avatarSeed)]
  }

  /** Adding appends exactly one blank Speaker with the given id and keeps the earlier members as they were. */
  lemma AddFacultyMemberSpec(members: seq<MockData.FacultyMember>, id: string, avatarSeed: string)
    ensures var r := AddFacultyMember(members, id, avatarSeed);
      |r| == |members| + 1 && r[..|members|] == members &&
      r[|members|].id == id && r[|members|].role == MockData.Speaker &&
      r[|members|].name == r[|members|].affiliation == "" && r[|members|].avatar.Some?
  {
    var r := AddFacultyMember(members, id, avatarSeed);
    assert r[..|members|] == members;
  }

  function UpdateFacultyMember(members: seq<MockData.FacultyMember>, id: string, e: FacultyEdit): seq<MockData.FacultyMember> {
    MapWhere(members, FacultyHasId(id), FacultyEditor(e))
  }

  function RemoveFacultyMember(members: seq<MockData.FacultyMember>, id: string): seq<MockData.FacultyMember> {
    Filter(members, Not(FacultyHasId(id)))
  }

  lemma UpdateFacultyMemberSpec(members: seq<MockData.FacultyMember>, id: string, e: FacultyEdit)
    ensures var r := UpdateFacultyMember(members, id, e);
      |r| == |members| &&
      (forall i :: 0 <= i < |r| ==> r[i].id == members[i].id) &&
      (forall i :: 0 <= i < |r| && members[i].id == id ==> r[i] == EditFacultyMember(members[i], e)) &&
      (forall i :: 0 <= i < |r| && members[i].id != id ==> r[i] == members[i])
  {
  }

  lemma RemoveFacultyMemberSpec(members: seq<MockData.FacultyMember>, id: string)
    ensures var r := RemoveFacultyMember(members, id);
      IsSubsequence(r, members) &&
      (forall i :: 0 <= i < |r| ==> r[i].id != id) &&
      (forall x :: multiset(r)[x] == if x.id != id then multiset(members)[x] else 0)
  {
    FilterSpec(members, Not(FacultyHasId(id)));
  }

  lemma RemoveAfterUpdateFaculty(members: seq<MockData.FacultyMember>, id: string, e: FacultyEdit)
    ensures RemoveFacultyMember(UpdateFacultyMember(members, id, e), id) == RemoveFacultyMember(members, id)
  {
    RemoveAfterMapWhere(members, FacultyHasId(id), FacultyEditor(e));
  }

  lemma AddThenRemoveFaculty(members: seq<MockData.FacultyMember>, id: string, avatarSeed: string)
    requires forall i :: 0 <= i < |members| ==> members[i].id != id
    ensures RemoveFacultyMember(AddFacultyMember(members, id, avatarSeed), id) == members
  {
    var keep := Not(FacultyHasId(id));
    FilterConcat(members, [NewFacultyMember(id, avatarSeed)], keep);
    FilterAll(members, keep);
    FilterSingleton(NewFacultyMember(id, avatarSeed), keep);
  }

  // ------------------------------------------------------------ the gate

  /** `isStepValid(step)`: a JavaScript string is truthy iff it is non-empty. */
  predicate IsStepValid(form: FormData, step: int) {
    if step == 1 then
      form.title != "" && form.date != "" && form.startTime != "" && form.endTime != "" &&
      form.format != "" && form.organizerName != ""
    else if step == 2 then |form.agenda| > 0 && |form.faculty| > 0
    else if step == 3 then form.advertisingPolicy != "" && form.coiAcknowledged
    else step == 4
  }

  /** `canPublish`: the three required steps. */
  predicate CanPublish(form: FormData) {
    IsStepValid(form, 1) && IsStepValid(form, 2) && IsStepValid(form, 3)
  }

  /** The five rows of the publish checklist, in display order. */
  function Checklist(form: FormData): seq<bool> {
    [IsStepValid(form, 1), |form.agenda| > 0, |form.faculty| > 0,
     form.advertisingPolicy != "", form.coiAcknowledged]
  }

  /** The steps whose required fields are all filled, as the step indicator marks them. */
  lemma StepValidity(form: FormData, step: int)
    ensures IsStepValid(form, 4)
    ensures step < 1 || step > 4 ==> !IsStepValid(form, step)
    ensures IsStepValid(form, 2) <==> form.agenda != [] && form.faculty != []
    ensures IsStepValid(form, 3) <==> form.advertisingPolicy != "" && form.coiAcknowledged
  {
  }

  /** The checklist is all ticked exactly when the form can be published. */
  lemma ChecklistMatchesGate(form: FormData)
    ensures (forall i :: 0 <= i < |Checklist(form)| ==> Checklist(form)[i]) <==> CanPublish(form)
  {
    var c := Checklist(form);
    if CanPublish(form) {
      forall i | 0 <= i < |c| ensures c[i] { }
    } else {
      assert !(c[0] && c[1] && c[2] && c[3] && c[4]);
    }
  }

  /** The blank form cannot be published. */
  lemma InitialFormNotPublishable()
    ensures !CanPublish(InitialForm)
    ensures IsStepValid(InitialForm, 4) && !IsStepValid(InitialForm, 1)
  {
  }

  /** Only the fields of steps 1 to 3 decide the gate; editing any other field leaves it as it was. */
  lemma GateIgnoresOtherFields(form: FormData, f: Field, v: Value)
    requires Fits(f, v)
    requires f in {Subtitle, Location, City, CoverImage, OrganizerAvatar, AutoPoster, Description,
                   StreamingLink, Council, ObserverLink, EstimatedCredits}
    ensures CanPublish(SetField(form, f, v)) == CanPublish(form)
  {
  }

  /** Removing the last agenda row or faculty member closes the gate again. */
  lemma RemovingLastRowClosesGate(form: FormData, id: string)
    requires |form.agenda| == 1 && form.agenda[0].id == id
    ensures !CanPublish(form.(agenda := RemoveAgendaItem(form.agenda, id)))
  {
    FilterCons(form.agenda, Not(AgendaHasId(id)));
  }

  // ----------------------------------------------------------------- slug

  /** Drops the whitespace at the front. */
  function DropSpaces(s: string): (r: string)
    ensures |r| <= |s|
    ensures r == [] || !IsSpace(r[0])
    decreases |s|
  {
    if s != [] && IsSpace(s[0]) then DropSpaces(s[1..]) else s
  }

  /** `s.replace(/\s+/g, '-')`: every maximal run of whitespace becomes one dash. */
  function Dashify(s: string): (r: string)
    ensures NoSpace(r)
    ensures |r| <= |s| && (r == [] <==> s == [])
    ensures forall i :: 0 <= i < |r| ==> r[i] == '-' || r[i] in s
    decreases |s|
  {
    if s == [] then []
    else if IsSpace(s[0]) then
      var rest := DropSpaces(s[1..]);
      assert forall c :: c in rest ==> c in s[1..] by {
        DropSpacesSuffix(s[1..]);
      }
      "-" + Dashify(rest)
    else [s[0]] + Dashify(s[1..])
  }

  lemma {:induction false} DropSpacesSuffix(s: string)
    ensures exists k :: 0 <= k <= |s| && DropSpaces(s) == s[k..]
    decreases |s|
  {
    if s != [] && IsSpace(s[0]) {
      DropSpacesSuffix(s[1..]);
      var k :| 0 <= k <= |s[1..]| && DropSpaces(s[1..]) == s[1..][k..];
      assert s[1..][k..] == s[k + 1..];
    } else {
      assert s[0..] == s;
    }
  }

  lemma {:induction false} DropSpacesRun(w: string, rest: string)
    requires forall i :: 0 <= i < |w| ==> IsSpace(w[i])
    requires rest == [] || !IsSpace(rest[0])
    ensures DropSpaces(w + rest) == rest
    decreases |w|
  {
    if w != [] {
      assert (w + rest)[1..] == w[1..] + rest;
      DropSpacesRun(w[1..], rest);
    } else {
      assert w + rest == rest;
    }
  }

  /** A string without whitespace is left as it is. */
  lemma {:induction false} DashifyNoSpace(s: string)
    requires NoSpace(s)
    ensures Dashify(s) == s
    decreases |s|
  {
    if s != [] {
      DashifyNoSpace(s[1..]);
    }
  }

  /** A whitespace run in front of a word becomes a single dash. */
  lemma DashifyRun(w: string, rest: string)
    requires w != [] && forall i :: 0 <= i < |w| ==> IsSpace(w[i])
    requires rest == [] || !IsSpace(rest[0])
    ensures Dashify(w + rest) == "-" + Dashify(rest)
  {
    assert (w + rest)[0] == w[0];
    assert (w + rest)[1..] == w[1..] + rest;
    DropSpacesRun(w[1..], rest);
  }

  /** A word without whitespace passes through unchanged, in place, in front of whatever follows it. */
  lemma {:induction false} DashifyWord(w: string, rest: string)
    requires NoSpace(w)
    ensures Dashify(w + rest) == w + Dashify(rest)
    decreases |w|
  {
    if w == [] {
      assert w + rest == rest;
    } else {
      assert (w + rest)[0] == w[0];
      assert (w + rest)[1..] == w[1..] + rest;
      DashifyWord(w[1..], rest);
      assert w == [w[0]] + w[1..];
    }
  }

  /**
   * Run by run: a word, a run of whitespace and a rest that starts with a
   * word become the word, one dash and the dashified rest. With DashifyWord
   * for the last word this fixes `Dashify` on every string.
   */
  lemma DashifyWordThenRun(w: string, sp: string, rest: string)
    requires NoSpace(w)
    requires sp != [] && forall i :: 0 <= i < |sp| ==> IsSpace(sp[i])
    requires rest == [] || !IsSpace(rest[0])
    ensures Dashify(w + sp + rest) == w + "-" + Dashify(rest)
  {
    assert w + sp + rest == w + (sp + rest);
    DashifyWord(w, sp + rest);
    DashifyRun(sp, rest);
  }

  /** Lower-casing leaves whitespace where it is and adds none. */
  lemma LowerKeepsSpaces(s: string)
    ensures forall i :: 0 <= i < |s| ==> (IsSpace(Lower(s)[i]) <==> IsSpace(s[i]))
  {
  }

  /** The slug shown in the public URL: the dashified lower-case title, or `untitled`. */
  function Slug(title: string): string {
    var d := Dashify(Lower(title));
    if d == "" then "untitled" else d
  }

  lemma DashifyNoUpper(s: string)
    requires forall i :: 0 <= i < |s| ==> !IsUpper(s[i])
    ensures forall i :: 0 <= i < |Dashify(s)| ==> !IsUpper(Dashify(s)[i])
  {
    var d := Dashify(s);
    forall i | 0 <= i < |d| ensures !IsUpper(d[i]) {
      if d[i] != '-' {
        var j :| 0 <= j < |s| && s[j] == d[i];
      }
    }
  }

  /** The slug is never empty, has no whitespace and no upper-case letter; an empty title gives `untitled`. */
  lemma SlugShape(title: string)
    ensures Slug(title) != "" && NoSpace(Slug(title))
    ensures forall i :: 0 <= i < |Slug(title)| ==> !IsUpper(Slug(title)[i])
    ensures Slug(title) == "untitled" <==> title == "" || Dashify(Lower(title)) == "untitled"
  {
    LowerShape(title);
    DashifyNoUpper(Lower(title));
  }

  /** Slugging a slug changes nothing. */
  lemma SlugIdempotent(title: string)
    ensures Slug(Slug(title)) == Slug(title)
  {
    var s := Slug(title);
    SlugShape(title);
    LowerIdentity(s);
    DashifyNoSpace(s);
  }

  /** Titles with the same lower-case form share a slug. */
  lemma SlugIgnoresCase(t1: string, t2: string)
    requires Lower(t1) == Lower(t2)
    ensures Slug(t1) == Slug(t2)
  {
  }

  /** A one-word title's slug is the word in lower case. */
  lemma SlugOneWord(w: string)
    requires w != [] && NoSpace(w)
    ensures Slug(w) == Lower(w)
  {
    LowerKeepsSpaces(w);
    DashifyNoSpace(Lower(w));
  }

  /**
   * A title that opens with a word and a run of whitespace slugs to the
   * lower-case word, one dash, and the dashified lower-case rest.
   */
  lemma SlugWordThenRun(w: string, sp: string, rest: string)
    requires w != [] && NoSpace(w)
    requires sp != [] && forall i :: 0 <= i < |sp| ==> IsSpace(sp[i])
    requires rest == [] || !IsSpace(rest[0])
    ensures Slug(w + sp + rest) == Lower(w) + "-" + Dashify(Lower(rest))
  {
    LowerConcat(w + sp, rest);
    LowerConcat(w, sp);
    LowerKeepsSpaces(w);
    LowerKeepsSpaces(sp);
    LowerKeepsSpaces(rest);
    DashifyWordThenRun(Lower(w), Lower(sp), Lower(rest));
  }

  /** The address shown in the read-only URL field. */
  function DisplayedUrl(title: string): string {
    "sahajcme.com/event/" + Slug(title)
  }

  /** What the Copy button writes, as written: the `untitled` fallback is missing. */
  function CopiedUrlAsWritten(title: string): string {
    "https://sahajcme.com/event/" + Dashify(Lower(title))
  }

  /** What Copy evidently should write: the address shown in the field, made absolute. */
  function CopiedUrl(title: string): string {
    "https://" + DisplayedUrl(title)
  }

  /** For an untitled event the copied address ends in `/event/` and is not the one displayed. */
  lemma CopiedUrlAsWrittenMismatch()
    ensures CopiedUrlAsWritten("") == "https://sahajcme.com/event/"
    ensures CopiedUrlAsWritten("") != CopiedUrl("")
  {
    assert |CopiedUrlAsWritten("")| < |CopiedUrl("")|;
  }

  /** The scheme put in front of the displayed address gives the as-written prefix. */
  lemma SchemeJoin(s: string)
    ensures "https://" + ("sahajcme.com/event/" + s) == "https://sahajcme.com/event/" + s
  {
  }

  /** The as-written copy agrees with the displayed address exactly when the title is non-empty. */
  lemma CopiedUrlAgreement(title: string)
    ensures CopiedUrlAsWritten(title) == CopiedUrl(title) <==> title != ""
  {
    LowerShape(title);
    var d := Dashify(Lower(title));
    if title == "" {
      CopiedUrlAsWrittenMismatch();
    } else {
      assert Slug(title) == d;
      SchemeJoin(d);
    }
  }

  /** The copied address ends with a slug: never with `/event/`, never with whitespace. */
  lemma CopiedUrlShape(title: string)
    ensures var url := CopiedUrl(title);
      url == "https://sahajcme.com/event/" + Slug(title) && Slug(title) != "" && NoSpace(Slug(title))
  {
    SlugShape(title);
    SchemeJoin(Slug(title));
  }

  // --------------------------------------------------------------- wizard

  /** The wizard's state: the current step, the published flag and the form. */
  class CreateEventWizard {
    var currentStep: int
    var isPublished: bool
    var form: FormData

    ghost predicate Valid()
      reads this
    {
      1 <= currentStep <= 4
    }

    /** The publish button is enabled only for a publishable, not yet published form. */
    predicate PublishEnabled()
      reads this
    {
      CanPublish(form) && !isPublished
    }

    /** Next is offered on steps 1 to 3; on step 4 the publish button takes its place. */
    predicate NextShown()
      reads this
    {
      currentStep < 4
    }

    /** Back is disabled on the first step. */
    predicate BackDisabled()
      reads this
    {
      currentStep == 1
    }

    constructor ()
      ensures Valid()
      ensures currentStep == 1 && !isPublished && form == InitialForm
    {
      currentStep := 1;
      isPublished := false;
      form := InitialForm;
    }

    /** `updateField(field, value)`. */
    method UpdateField(f: Field, v: Value)
      requires Fits(f, v)
      modifies this
      ensures form == SetField(old(form), f, v)
      ensures currentStep == old(currentStep) && isPublished == old(isPublished)
    {
      form := SetField(form, f, v);
    }

    /** `addAgendaItem`, with the clock's id passed in. */
    method AddAgendaRow(id: string)
      modifies this
      ensures form == old(form).(agenda := AddAgendaItem(old(form.agenda), id))
      ensures currentStep == old(currentStep) && isPublished == old(isPublished)
    {
      UpdateField(Agenda, AgendaList(AddAgendaItem(form.agenda, id)));
    }

    method UpdateAgendaRow(id: string, e: AgendaEdit)
      modifies this
      ensures form == old(form).(agenda := UpdateAgendaItem(old(form.agenda), id, e))
      ensures currentStep == old(currentStep) && isPublished == old(isPublished)
    {
      UpdateField(Agenda, AgendaList(UpdateAgendaItem(form.agenda, id, e)));
    }

    method RemoveAgendaRow(id: string)
      modifies this
      ensures form == old(form).(agenda := RemoveAgendaItem(old(form.agenda), id))
      ensures currentStep == old(currentStep) && isPublished == old(isPublished)
    {
      UpdateField(Agenda, AgendaList(RemoveAgendaItem(form.agenda, id)));
    }

    /** `addFaculty`, with the clock's id and avatar seed passed in. */
    method AddFacultyRow(id: string, avatarSeed: string)
      modifies this
      ensures form == old(form).(faculty := AddFacultyMember(old(form.faculty), id, avatarSeed))
      ensures currentStep == old(currentStep) && isPublished == old(isPublished)
    {
      UpdateField(Faculty, FacultyList(AddFacultyMember(form.faculty, id, avatarSeed)));
    }

    method UpdateFacultyRow(id: string, e: FacultyEdit)
      modifies this
      ensures form == old(form).(faculty := UpdateFacultyMember(old(form.faculty), id, e))
      ensures currentStep == old(currentStep) && isPublished == old(isPublished)
    {
      UpdateField(Faculty, FacultyList(UpdateFacultyMember(form.faculty, id, e)));
    }

    method RemoveFacultyRow(id: string)
      modifies this
      ensures form == old(form).(faculty := RemoveFacultyMember(old(form.faculty), id))
      ensures currentStep == old(currentStep) && isPublished == old(isPublished)
    {
      UpdateField(Faculty, FacultyList(RemoveFacultyMember(form.faculty, id)));
    }

    /** `handlePublish`: publishes a publishable form, and otherwise changes nothing. */
    method HandlePublish()
      modifies this
      ensures isPublished == (old(isPublished) || CanPublish(old(form)))
      ensures !CanPublish(old(form)) ==> isPublished == old(isPublished)
      ensures form == old(form) && currentStep == old(currentStep)
    {
      if CanPublish(form) {
        isPublished := true;
      }
    }

    /** Back: `max(1, currentStep - 1)`. */
    method Back()
      requires Valid()
      modifies this
      ensures Valid()
      ensures currentStep == if old(currentStep) > 1 then old(currentStep) - 1 else 1
      ensures form == old(form) && isPublished == old(isPublished)
    {
      currentStep := if currentStep - 1 > 1 then currentStep - 1 else 1;
    }

    /** Next: `min(4, currentStep + 1)`. */
    method Next()
      requires Valid()
      modifies this
      ensures Valid()
      ensures currentStep == if old(currentStep) < 4 then old(currentStep) + 1 else 4
      ensures form == old(form) && isPublished == old(isPublished)
    {
      currentStep := if currentStep + 1 < 4 then currentStep + 1 else 4;
    }

    /** A step button: any of the four steps, valid or not. */
    method GoToStep(n: int)
      requires 1 <= n <= 4
      modifies this
      ensures Valid() && currentStep == n
      ensures form == old(form) && isPublished == old(isPublished)
    {
      currentStep := n;
    }

    /** "Open Public Page", offered once the event is published. */
    method OpenPublicPage(stamp: string) returns (target: string)
      requires isPublished
      ensures target == "/event/" + stamp
      ensures App.IsPublicPage(target)
      ensures App.IsSegment(stamp) ==> App.Route(target) == App.PublicEvent(stamp)
    {
      target := "/event/" + stamp;
      assert StartsWith(target, "/event/");
      if App.IsSegment(stamp) {
        App.PublicRouteRoundTrip(stamp);
      }
    }
  }
}
