/**
 * The doctor's home page: the badge teaser (the first four unlocked
 * badges, then the first locked one), the recent-certificates table and
 * its quick view.
 */
module DoctorHome {
  import opened Wrappers
  import opened Seqs
  import opened DoctorMockData
  import opened DoctorAchievements

  /** `badges.filter(b => b.unlocked).slice(0, 4)`. */
  function UnlockedBadges(badges: seq<Badge>): seq<Badge> {
    Take(Filter(badges, IsUnlocked()), 4)
  }

  /** `badges.find(b => !b.unlocked)`. */
  function NextBadge(badges: seq<Badge>): Option<Badge> {
    Find(badges, Not(IsUnlocked()))
  }

  /**
   * At most four badges, all unlocked, and they are the first unlocked
   * badges of the list in their order.
   */
  lemma UnlockedBadgesSpec(badges: seq<Badge>)
    ensures var u := UnlockedBadges(badges);
      |u| <= 4 && (forall i :: 0 <= i < |u| ==> u[i].unlocked && u[i] in badges) &&
      u == Filter(badges, IsUnlocked())[..|u|] &&
      (|u| < 4 ==> u == Filter(badges, IsUnlocked()))
  {
  }

  /** The next badge is the first locked one, and there is none exactly when every badge is unlocked. */
  lemma NextBadgeSpec(badges: seq<Badge>)
    ensures NextBadge(badges).None? <==> forall i :: 0 <= i < |badges| ==> badges[i].unlocked
    ensures NextBadge(badges).Some? ==>
              exists i :: 0 <= i < |badges| && badges[i] == NextBadge(badges).value && !badges[i].unlocked &&
                          forall j :: 0 <= j < i ==> badges[j].unlocked
  {
  }

  /** The tokens the teaser renders, in order. */
  function Teaser(badges: seq<Badge>): seq<Badge> {
    UnlockedBadges(badges) + match NextBadge(badges) { case None => [] case Some(b) => [b] }
  }

  /** The teaser shows at most five tokens, and only its last one can be locked. */
  lemma TeaserShape(badges: seq<Badge>)
    ensures |Teaser(badges)| <= 5
    ensures forall i :: 0 <= i < |Teaser(badges)| && !Teaser(badges)[i].unlocked ==>
              i == |Teaser(badges)| - 1 && NextBadge(badges) == Some(Teaser(badges)[i])
    ensures |Filter(Teaser(badges), Not(IsUnlocked()))| <= 1
  {
    var t := Teaser(badges);
    var u := UnlockedBadges(badges);
    UnlockedBadgesSpec(badges);
    FilterConcat(u, t[|u|..], Not(IsUnlocked()));
    assert t == u + t[|u|..];
    FilterNone(u, Not(IsUnlocked()));
  }

  /** The "RMC Ref pending" note under a row's title. */
  predicate ShowsRefPending(cert: Certificate) {
    cert.status == Pending
  }

  /** The page's state. */
  class HomePage {
    var selectedCertificate: Option<Certificate>
    var showQuickView: bool

    constructor ()
      ensures selectedCertificate == None && !showQuickView
    {
      selectedCertificate := None;
      showQuickView := false;
    }

    /** `handleCertificateClick`: the certificate is selected and the quick view opens. */
    method HandleCertificateClick(cert: Certificate)
      modifies this
      ensures selectedCertificate == Some(cert) && showQuickView
    {
      selectedCertificate := Some(cert);
      showQuickView := true;
    }
  }
}
