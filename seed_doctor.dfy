/**
 * The doctor's seed data, read through the pages that use it: which
 * badges are unlocked, how they group, which one the home page offers
 * next, what each passbook filter keeps, and the hours they add up to.
 */
module DoctorSeed {
  import opened Wrappers
  import opened Seqs
  import opened DoctorMockData
  import opened DoctorAchievements
  import DoctorHome
  import DoctorPassbook

  // -------------------------------------------------------------- badges

  lemma BadgeThirds()
    ensures Badges == [B1, B2, B3] + [B4, B5, B6] + [B7] + []
  {
  }

  /** A filter of the seven badges, assembled from its thirds. */
  lemma BadgeFilter(p: Badge -> bool, r: seq<Badge>)
    requires r == Filter([B1, B2, B3], p) + Filter([B4, B5, B6], p) + Filter([B7], p) + Filter([], p)
    ensures Filter(Badges, p) == r
  {
    BadgeThirds();
    Assemble(Badges, p, [B1, B2, B3], [B4, B5, B6], [B7], [], r);
  }

  /** The badges 1 to 4 are the unlocked ones. */
  lemma UnlockedSeed()
    ensures Filter(Badges, IsUnlocked()) == [B1, B2, B3, B4]
  {
    var p := IsUnlocked();
    FilterThree(B1, B2, B3, p);
    FilterThree(B4, B5, B6, p);
    FilterSingleton(B7, p);
    BadgeFilter(p, [B1, B2, B3, B4]);
  }

  /** The badges 5 to 7 are the locked ones. */
  lemma LockedSeed()
    ensures Filter(Badges, Not(IsUnlocked())) == [B5, B6, B7]
  {
    var p := Not(IsUnlocked());
    FilterThree(B1, B2, B3, p);
    FilterThree(B4, B5, B6, p);
    FilterSingleton(B7, p);
    BadgeFilter(p, [B5, B6, B7]);
  }

  /** Seven badges, of which the header counts four as unlocked. */
  lemma UnlockedCountSeed()
    ensures |Badges| == 7 && UnlockedCount(Badges) == 4
  {
    UnlockedSeed();
  }

  lemma CoreSeed()
    ensures Filter(Badges, InCategory(Core)) == [B1, B2, B3, B5]
  {
    var p := InCategory(Core);
    FilterThree(B1, B2, B3, p);
    FilterThree(B4, B5, B6, p);
    FilterSingleton(B7, p);
    BadgeFilter(p, [B1, B2, B3, B5]);
  }

  lemma ContributionSeed()
    ensures Filter(Badges, InCategory(Contribution)) == [B4]
  {
    var p := InCategory(Contribution);
    FilterThree(B1, B2, B3, p);
    FilterThree(B4, B5, B6, p);
    FilterSingleton(B7, p);
    BadgeFilter(p, [B4]);
  }

  lemma ComplianceSeed()
    ensures Filter(Badges, InCategory(Compliance)) == [B6, B7]
  {
    var p := InCategory(Compliance);
    FilterThree(B1, B2, B3, p);
    FilterThree(B4, B5, B6, p);
    FilterSingleton(B7, p);
    BadgeFilter(p, [B6, B7]);
  }

  /** The achievements page groups the badges 1, 2, 3 and 5 as core, 4 as contribution, 6 and 7 as compliance. */
  lemma GroupsSeed()
    ensures GroupBadges(Badges) == Groups([B1, B2, B3, B5], [B4], [B6, B7])
  {
    CoreSeed();
    ContributionSeed();
    ComplianceSeed();
  }

  /** The home page offers badge 5, `Full Cycle`, as the next one. */
  lemma NextBadgeSeed()
    ensures DoctorHome.NextBadge(Badges) == Some(B5) && B5.name == "Full Cycle"
  {
    LockedSeed();
    FindIsFirstOfFilter(Badges, Not(IsUnlocked()));
  }

  /** The home page's teaser shows the four unlocked badges and then badge 5. */
  lemma TeaserSeed()
    ensures DoctorHome.Teaser(Badges) == [B1, B2, B3, B4, B5]
  {
    UnlockedSeed();
    NextBadgeSeed();
    assert Take([B1, B2, B3, B4], 4) == [B1, B2, B3, B4];
  }

  // -------------------------------------------------------- certificates

  /** The full list is the four recent certificates followed by certificates 5 and 6. */
  lemma AllCertificatesSeed()
    ensures AllCertificates == [C1, C2, C3] + [C4, C5, C6] + [] + []
    ensures AllCertificates[..4] == RecentCertificates
  {
  }

  /** A passbook filter of the six certificates, assembled from its halves. */
  lemma CertificateFilter(f: DoctorPassbook.CertificateFilter, r: seq<Certificate>)
    requires r == Filter([C1, C2, C3], DoctorPassbook.CertificateKeeper(f)) +
                  Filter([C4, C5, C6], DoctorPassbook.CertificateKeeper(f))
    ensures DoctorPassbook.FilteredCertificates(f) == r
  {
    var p := DoctorPassbook.CertificateKeeper(f);
    AllCertificatesSeed();
    assert Filter([], p) == [];
    Assemble(AllCertificates, p, [C1, C2, C3], [C4, C5, C6], [], [], r);
  }

  /** `locked` keeps only certificate 3, the one pending. */
  lemma LockedCertificatesSeed()
    ensures DoctorPassbook.FilteredCertificates(DoctorPassbook.LockedOnly) == [C3]
  {
    var p := DoctorPassbook.CertificateKeeper(DoctorPassbook.LockedOnly);
    FilterThree(C1, C2, C3, p);
    FilterThree(C4, C5, C6, p);
    CertificateFilter(DoctorPassbook.LockedOnly, [C3]);
  }

  /** `RMC` keeps the certificates 3 and 6. */
  lemma RmcCertificatesSeed()
    ensures DoctorPassbook.FilteredCertificates(DoctorPassbook.RmcOnly) == [C3, C6]
  {
    var p := DoctorPassbook.CertificateKeeper(DoctorPassbook.RmcOnly);
    FilterThree(C1, C2, C3, p);
    FilterThree(C4, C5, C6, p);
    CertificateFilter(DoctorPassbook.RmcOnly, [C3, C6]);
  }

  /** `DMC` keeps the other four. */
  lemma DmcCertificatesSeed()
    ensures DoctorPassbook.FilteredCertificates(DoctorPassbook.DmcOnly) == [C1, C2, C4, C5]
  {
    var p := DoctorPassbook.CertificateKeeper(DoctorPassbook.DmcOnly);
    FilterThree(C1, C2, C3, p);
    FilterThree(C4, C5, C6, p);
    CertificateFilter(DoctorPassbook.DmcOnly, [C1, C2, C4, C5]);
  }

  /** The hours of the six certificates. */
  lemma SixHours()
    ensures DoctorPassbook.TotalHours([C1, C2, C3, C4, C5, C6]) == 18.5
  {
    var s, f := [C1, C2, C3, C4, C5, C6], DoctorPassbook.Hours();
    assert SumRealFrom(s, f, 6) == 0.0;
    assert SumRealFrom(s, f, 5) == 2.0;
    assert SumRealFrom(s, f, 4) == 4.0;
    assert SumRealFrom(s, f, 3) == 7.0;
    assert SumRealFrom(s, f, 2) == 11.0;
    assert SumRealFrom(s, f, 1) == 14.5;
  }

  /**
   * The passbook's header total is 18.5 hours, the profile's current
   * credits, which leaves the 11.5 hours to the 30-hour target that the
   * home page states.
   */
  lemma TotalHoursSeed()
    ensures DoctorPassbook.TotalHours(AllCertificates) == 18.5 == Profile.credits.current
    ensures Profile.credits.total as real - DoctorPassbook.TotalHours(AllCertificates) == 11.5
  {
    AllCertificatesSeed();
    assert AllCertificates == [C1, C2, C3, C4, C5, C6];
    SixHours();
  }
}
