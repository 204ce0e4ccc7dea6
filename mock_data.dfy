/**
 * The event records of the prototype and its fixed twelve-event catalog.
 *
 * Optional TypeScript fields (`field?: T`) are `Option`s; string-literal
 * unions are datatypes, with the exact strings the pages compare against
 * given by `FormatName`, `CouncilName` and `StatusName`. Credits are exact
 * decimals (`real`). The cover-image URLs are not part of the records.
 */
module MockData {
  import opened Wrappers

  datatype Format = Online | InPerson | Hybrid

  /** The string a format is stored as. */
  function FormatName(f: Format): string {
    match f
    case Online => "Online"
    case InPerson => "In-person"
    case Hybrid => "Hybrid"
  }

  datatype Council = DMC | RMC

  function CouncilName(c: Council): string {
    match c
    case DMC => "DMC"
    case RMC => "RMC"
  }

  datatype Status = Live | New | Pending | Closed

  function StatusName(s: Status): string {
    match s
    case Live => "live"
    case New => "new"
    case Pending => "pending"
    case Closed => "closed"
  }

  datatype Organizer = Organizer(name: string, avatar: string)

  datatype AgendaItem = AgendaItem(id: string, startTime: string, title: string, speaker: string, duration: int)

  datatype FacultyRole = Speaker | Chair | Moderator

  function FacultyRoleName(r: FacultyRole): string {
    match r
    case Speaker => "Speaker"
    case Chair => "Chair"
    case Moderator => "Moderator"
  }

  datatype FacultyMember = FacultyMember(id: string, name: string, role: FacultyRole, affiliation: string, avatar: Option<string>)

  datatype Event = Event(
    id: string,
    title: string,
    subtitle: Option<string>,
    date: string,
    startTime: string,
    endTime: string,
    format: Format,
    location: Option<string>,
    city: Option<string>,
    venue: Option<string>,
    seatsLeft: Option<int>,
    organizer: Organizer,
    council: Council,
    status: Option<Status>,
    specialty: Option<string>,
    description: Option<string>,
    agenda: Option<seq<AgendaItem>>,
    faculty: Option<seq<FacultyMember>>,
    streamingLink: Option<string>,
    estimatedCredits: Option<real>,
    refNumber: Option<string>)

  const AvatarBase := "https://api.dicebear.com/7.x/avataaars/svg?seed="

  const E1 := Event(
    "1", "Critical Care Update (Day-1)", Some("Advanced ICU management strategies for 2025"),
    "2025-11-20", "09:00", "17:00", Hybrid,
    Some("AIIMS Convention Center"), Some("Delhi"), Some("AIIMS Convention Center"), Some(15),
    Organizer("Dr. Rajesh Kumar", AvatarBase + "male-doc-2"), DMC, Some(Live), Some("Critical Care"),
    Some("Comprehensive update on critical care management with hands-on workshops and case discussions."),
    Some([
      AgendaItem("a1", "09:00", "ARDS Management 2025", "Dr. Sharma", 60),
      AgendaItem("a2", "10:15", "Sepsis Protocol Updates", "Dr. Verma", 45),
      AgendaItem("a3", "11:15", "Ventilator Strategies", "Dr. Kumar", 60)]),
    Some([
      FacultyMember("f1", "Dr. Anjali Sharma", Speaker, "AIIMS Delhi", Some(AvatarBase + "female-doc-1")),
      FacultyMember("f2", "Dr. Vikram Verma", Speaker, "PGIMER Chandigarh", Some(AvatarBase + "male-doc-1")),
      FacultyMember("f3", "Dr. Rajesh Kumar", Chair, "AIIMS Delhi", Some(AvatarBase + "male-doc-2"))]),
    Some("https://zoom.us/j/123456789"), Some(6.0), None)

  const E2 := Event(
    "2", "Airway Workshop \U{2014} Hands-on", Some("Practical skills in difficult airway management"),
    "2025-11-22", "08:00", "16:00", Online,
    Some(""), Some(""), Some(""), Some(3),
    Organizer("Dr. Priya Singh", AvatarBase + "female-doc-2"), DMC, Some(New), Some("Anesthesiology"),
    Some("Intensive hands-on workshop focusing on difficult airway management techniques."),
    Some([
      AgendaItem("a1", "08:00", "Introduction to Difficult Airway", "Dr. Singh", 30),
      AgendaItem("a2", "09:00", "Hands-on: Video Laryngoscopy", "Dr. Malhotra", 120),
      AgendaItem("a3", "11:30", "Fiber-optic Intubation", "Dr. Gupta", 90)]),
    Some([
      FacultyMember("f1", "Dr. Priya Singh", Chair, "SMS Medical College", Some(AvatarBase + "female-doc-2")),
      FacultyMember("f2", "Dr. Amit Malhotra", Speaker, "AIIMS Jodhpur", Some(AvatarBase + "male-doc-3")),
      FacultyMember("f3", "Dr. Neha Gupta", Speaker, "RML Hospital", Some(AvatarBase + "female-doc-3"))]),
    None, Some(5.0), None)

  const E3 := Event(
    "3", "ECMO Basics", Some("Understanding extracorporeal membrane oxygenation"),
    "2025-11-25", "14:00", "18:00", Online,
    None, None, None, Some(50),
    Organizer("Dr. Suresh Menon", AvatarBase + "male-doc-4"), DMC, None, Some("Critical Care"),
    Some("Introduction to ECMO technology, indications, and patient management."),
    None, None, Some("https://zoom.us/j/987654321"), Some(3.0), None)

  const E4 := Event(
    "4", "Cardio Summit Jaipur", Some("Latest advances in cardiovascular medicine"),
    "2025-11-28", "09:00", "18:00", InPerson,
    Some("Fortis Escorts Hospital"), Some("Jaipur"), Some("ITC Rajputana"), Some(25),
    Organizer("Dr. Anil Kapoor", AvatarBase + "male-doc-5"), DMC, None, Some("Cardiology"),
    Some("Full-day summit covering the latest developments in cardiology and interventional procedures."),
    None, None, None, Some(7.0), None)

  const E5 := Event(
    "5", "Neuro Imaging Pearls", Some("Advanced neuroimaging techniques and interpretation"),
    "2025-12-01", "15:00", "17:30", Online,
    None, None, None, Some(100),
    Organizer("Dr. Meera Iyer", AvatarBase + "meera"), RMC, Some(Pending), Some("Neurology"),
    Some("Learn to interpret complex neuroimaging findings with expert radiologists."),
    None, None, Some("https://meet.google.com/abc-defg-hij"), Some(2.0), None)

  const E6 := Event(
    "6", "Sepsis Review 2025", Some("Evidence-based management of sepsis and septic shock"),
    "2025-12-03", "10:00", "16:00", Hybrid,
    Some("KEM Hospital"), Some("Mumbai"), Some("Taj Lands End"), Some(12),
    Organizer("Dr. Sanjay Desai", AvatarBase + "sanjay"), DMC, None, Some("Critical Care"),
    Some("Comprehensive review of sepsis management based on latest guidelines."),
    None, None, Some("https://zoom.us/j/456789123"), Some(5.0), None)

  const E7 := Event(
    "7", "Pediatric Emergency Care", Some("Managing critically ill children"),
    "2025-12-05", "09:00", "13:00", Online,
    None, None, None, Some(75),
    Organizer("Dr. Kavita Reddy", AvatarBase + "kavita"), DMC, None, Some("Pediatrics"),
    Some("Focused session on pediatric emergency scenarios and management protocols."),
    None, None, Some("https://zoom.us/j/789123456"), Some(3.5), None)

  const E8 := Event(
    "8", "Trauma Life Support Workshop", Some("ATLS principles and practice"),
    "2025-12-08", "08:00", "17:00", InPerson,
    Some("Trauma Center, KGMU"), Some("Lucknow"), Some("Renaissance Lucknow Hotel"), Some(20),
    Organizer("Dr. Ravi Shankar", AvatarBase + "ravi"), DMC, None, Some("Emergency Medicine"),
    Some("Comprehensive trauma management workshop following ATLS guidelines."),
    None, None, None, Some(8.0), None)

  const E9 := Event(
    "9", "Obstetric Emergencies Online", Some("Managing critical obstetric situations"),
    "2025-12-10", "16:00", "19:00", Online,
    None, None, None, Some(60),
    Organizer("Dr. Lakshmi Narayanan", AvatarBase + "lakshmi"), RMC, None, Some("Obstetrics"),
    Some("Case-based learning for managing obstetric emergencies."),
    None, None, Some("https://teams.microsoft.com/l/meetup-join/xxx"), Some(2.5), None)

  const E10 := Event(
    "10", "Geriatric Care Symposium", Some("Comprehensive care for elderly patients"),
    "2025-12-12", "09:30", "16:30", Hybrid,
    Some("Max Hospital"), Some("Delhi"), Some("The Leela Ambience"), Some(4),
    Organizer("Dr. Ashok Mehta", AvatarBase + "ashok"), DMC, None, Some("Geriatrics"),
    Some("Multi-disciplinary approach to geriatric patient care."),
    None, None, Some("https://zoom.us/j/321654987"), Some(5.5), None)

  const E11 := Event(
    "11", "Radiology Update 2025", Some("Latest imaging techniques and AI applications"),
    "2025-12-15", "10:00", "17:00", InPerson,
    Some("Tata Memorial Hospital"), Some("Mumbai"), Some("Grand Hyatt Mumbai"), Some(30),
    Organizer("Dr. Pooja Patel", AvatarBase + "pooja"), RMC, None, Some("Radiology"),
    Some("Explore the latest advancements in medical imaging and AI integration."),
    None, None, None, Some(6.0), None)

  const E12 := Event(
    "12", "Pain Management Masterclass", Some("Multimodal approaches to chronic pain"),
    "2025-12-18", "09:00", "15:00", Online,
    None, None, None, Some(40),
    Organizer("Dr. Arjun Nair", AvatarBase + "arjun"), DMC, None, Some("Pain Medicine"),
    Some("Advanced pain management techniques and interventional procedures."),
    None, None, Some("https://zoom.us/j/654987321"), Some(4.5), None)

  /** `mockEvents`, in array order. */
  const MockEvents: seq<Event> := [E1, E2, E3, E4, E5, E6, E7, E8, E9, E10, E11, E12]

  /** The ids of a list of events, in order. */
  function Ids(s: seq<Event>): (r: seq<string>)
    ensures |r| == |s|
    ensures forall i :: 0 <= i < |s| ==> r[i] == s[i].id
  {
    seq(|s|, i requires 0 <= i < |s| => s[i].id)
  }
}
