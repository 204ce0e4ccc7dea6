/**
 * The doctor's seed data: the profile with its credit summary, the seven
 * badges, and the certificates (the four recent ones, then two more).
 * Hours are exact decimals.
 */
module DoctorMockData {
  import opened Wrappers

  datatype BadgeCategory = Core | Contribution | Compliance

  datatype Badge = Badge(
    id: string,
    name: string,
    description: string,
    icon: string,
    unlocked: bool,
    unlockedDate: Option<string>,
    category: BadgeCategory)

  datatype CertificateStatus = Verified | Pending | Locked

  datatype Certificate = Certificate(
    id: string,
    eventTitle: string,
    date: string,
    council: string,
    hours: real,
    status: CertificateStatus,
    venue: Option<string>,
    specialty: Option<string>,
    certificateUrl: Option<string>)

  datatype Credits = Credits(current: real, total: int, daysToRenewal: int, cycle: string)

  datatype DoctorProfile = DoctorProfile(
    name: string, email: string, avatar: string, credits: Credits, nextActions: seq<string>)

  const Profile := DoctorProfile(
    "Dr. Priya Sharma", "priya.sharma@example.com",
    "https://api.dicebear.com/7.x/avataaars/svg?seed=Priya",
    Credits(18.5, 30, 225, "2025\U{2013}2030"),
    ["Find 2-hr webinar", "Claim speaker +1", "Nudge organizer for RMC Ref"])

  const B1 := Badge("1", "Council-Ready", "Completed all required documentation", "council-ready", true, Some("Jan 2025"), Core)
  const B2 := Badge("2", "First 10", "Earned your first 10 CME hours", "first-10", true, Some("Feb 2025"), Core)
  const B3 := Badge("3", "Halfway There", "Reached 15 of 30 hours", "halfway", true, Some("Oct 2025"), Core)
  const B4 := Badge("4", "Speaker", "Contributed as faculty at an accredited event", "speaker", true, Some("Sep 2025"), Contribution)
  const B5 := Badge("5", "Full Cycle", "Complete all 30 hours in current cycle", "full-cycle", false, None, Core)
  const B6 := Badge("6", "Evidence Pro", "Maintained complete audit trail", "evidence-pro", false, None, Compliance)
  const B7 := Badge("7", "RMC Seal", "All certificates verified by RMC", "rmc-seal", false, None, Compliance)

  /** `badges`, in array order. */
  const Badges: seq<Badge> := [B1, B2, B3, B4, B5, B6, B7]

  const C1 := Certificate("1", "Critical Care Update 2025", "Oct 12, 2025", "DMC", 4.0, Verified,
                          Some("Sheraton Grand, Delhi"), Some("Critical Care"), None)
  const C2 := Certificate("2", "Advanced Airway Workshop", "Sep 8, 2025", "DMC", 3.5, Verified,
                          Some("AIIMS Convention Center"), Some("Anesthesia"), None)
  const C3 := Certificate("3", "ECMO Basics: A Practical Approach", "Aug 20, 2025", "RMC", 4.0, Pending,
                          Some("Fortis Hospital, Mumbai"), Some("Critical Care"), None)
  const C4 := Certificate("4", "Cardiac Arrhythmia Summit", "Jul 15, 2025", "DMC", 3.0, Verified,
                          Some("ITC Grand Bharat"), Some("Cardiology"), None)
  const C5 := Certificate("5", "Sepsis Management Review", "Jun 10, 2025", "DMC", 2.0, Verified,
                          Some("Max Hospital, Delhi"), Some("Critical Care"), None)
  const C6 := Certificate("6", "Neuro Imaging Pearls", "May 22, 2025", "RMC", 2.0, Verified,
                          Some("Manipal Hospital, Bangalore"), Some("Neurology"), None)

  /** `recentCertificates`. */
  const RecentCertificates: seq<Certificate> := [C1, C2, C3, C4]

  /** `allCertificates`: the recent ones spread first, then two older ones. */
  const AllCertificates: seq<Certificate> := RecentCertificates + [C5, C6]
}
