/**
 * The achievements page: the badges grouped by category, the unlocked
 * count in the header, and the detail sheet that opens for unlocked
 * badges only.
 */
module DoctorAchievements {
  import opened Wrappers
  import opened Seqs
  import opened DoctorMockData

  function InCategory(c: BadgeCategory): Badge -> bool {
    (b: Badge) => b.category == c
  }

  function IsUnlocked(): Badge -> bool {
    (b: Badge) => b.unlocked
  }

  /** `groupedBadges`: one filter per category. */
  datatype Groups = Groups(core: seq<Badge>, contribution: seq<Badge>, compliance: seq<Badge>)

  function GroupBadges(badges: seq<Badge>): Groups {
    Groups(Filter(badges, InCategory(Core)),
           Filter(badges, InCategory(Contribution)),
           Filter(badges, InCategory(Compliance)))
  }

  /**
   * The three groups partition the badges: each keeps its badges in order,
   * together they hold every badge exactly as often as the list does, and
   * so their sizes add up to the number of badges.
   */
  lemma GroupsPartition(badges: seq<Badge>)
    ensures var g := GroupBadges(badges);
      IsSubsequence(g.core, badges) && IsSubsequence(g.contribution, badges) &&
      IsSubsequence(g.compliance, badges) &&
      multiset(g.core) + multiset(g.contribution) + multiset(g.compliance) == multiset(badges) &&
      |g.core| + |g.contribution| + |g.compliance| == |badges|
  {
    var g := GroupBadges(badges);
    FilterIsSubsequence(badges, InCategory(Core));
    FilterIsSubsequence(badges, InCategory(Contribution));
    FilterIsSubsequence(badges, InCategory(Compliance));
    FilterSplitsThreeWays(badges, InCategory(Core), InCategory(Contribution), InCategory(Compliance));
    assert |multiset(g.core) + multiset(g.contribution) + multiset(g.compliance)| == |multiset(badges)|;
  }

  /** `unlockedCount`. */
  function UnlockedCount(badges: seq<Badge>): nat {
    |Filter(badges, IsUnlocked())|
  }

  /** The header's "k of n": the unlocked and the locked badges add up to all of them. */
  lemma UnlockedCountSpec(badges: seq<Badge>)
    ensures UnlockedCount(badges) <= |badges|
    ensures UnlockedCount(badges) + |Filter(badges, Not(IsUnlocked()))| == |badges|
    ensures UnlockedCount(badges) == |badges| <==> forall i :: 0 <= i < |badges| ==> badges[i].unlocked
  {
    FilterPartition(badges, IsUnlocked());
    if forall i :: 0 <= i < |badges| ==> badges[i].unlocked {
      FilterAll(badges, IsUnlocked());
    } else {
      var i :| 0 <= i < |badges| && !badges[i].unlocked;
      assert badges[i] in Filter(badges, Not(IsUnlocked()));
    }
  }

  /** The page's state. */
  class AchievementsPage {
    var selectedBadge: Option<Badge>
    var sheetOpen: bool

    constructor ()
      ensures selectedBadge == None && !sheetOpen
    {
      selectedBadge := None;
      sheetOpen := false;
    }

    /** `handleBadgeClick`: a locked badge changes nothing; an unlocked one is selected and the sheet opens. */
    method HandleBadgeClick(badge: Badge)
      modifies this
      ensures !badge.unlocked ==> selectedBadge == old(selectedBadge) && sheetOpen == old(sheetOpen)
      ensures badge.unlocked ==> selectedBadge == Some(badge) && sheetOpen
    {
      if !badge.unlocked {
        return;
      }
      selectedBadge := Some(badge);
      sheetOpen := true;
    }

    /** The sheet's own open/close. */
    method SetSheetOpen(open: bool)
      modifies this
      ensures sheetOpen == open && selectedBadge == old(selectedBadge)
    {
      sheetOpen := open;
    }
  }
}
