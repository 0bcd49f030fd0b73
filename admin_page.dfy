/** The administrator dashboard (app/admin/page.tsx): the project listing
    grouped by stored status label, the projects missing a recent check-in,
    and which sections are drawn. */
module AdminPage {

  import opened Sequences
  import opened ProjectModel
  import opened ProjectsRoute

  /** `p.status === expected` on the listing's JSON. */
  predicate LabelIs(l: ProjectListing, expected: string)
  {
    StatusLabel(l.project.status) == expected
  }

  function OnTrackGroup(ls: seq<ProjectListing>): seq<ProjectListing>
  {
    Filter(ls, (l: ProjectListing) => LabelIs(l, "On Track"))
  }

  function AtRiskGroup(ls: seq<ProjectListing>): seq<ProjectListing>
  {
    Filter(ls, (l: ProjectListing) => LabelIs(l, "At Risk"))
  }

  function CriticalGroup(ls: seq<ProjectListing>): seq<ProjectListing>
  {
    Filter(ls, (l: ProjectListing) => LabelIs(l, "Critical"))
  }

  /** `projects.filter(p => p.missingCheckIn)`: status plays no part. */
  function MissingCheckIns(ls: seq<ProjectListing>): seq<ProjectListing>
  {
    Filter(ls, (l: ProjectListing) => l.missingCheckIn)
  }

  /** The counts shown and the sections drawn. */
  datatype Dashboard = Dashboard(
    total: nat,
    onTrack: nat,
    atRisk: nat,
    critical: nat,
    showAttention: bool,
    showMissingCard: bool,
    showCriticalBlock: bool,
    showAtRiskSection: bool,
    showOnTrackSection: bool)

  function DashboardOf(ls: seq<ProjectListing>): (d: Dashboard)
    ensures d.total == |ls| && d.onTrack + d.atRisk + d.critical <= d.total
    ensures d.onTrack == |OnTrackGroup(ls)| && d.atRisk == |AtRiskGroup(ls)| && d.critical == |CriticalGroup(ls)|
    ensures d.showAttention <==>
              exists i :: 0 <= i < |ls| && (ls[i].missingCheckIn || ls[i].project.status == Critical)
    ensures d.showMissingCard <==> exists i :: 0 <= i < |ls| && ls[i].missingCheckIn
    ensures d.showCriticalBlock <==> exists i :: 0 <= i < |ls| && ls[i].project.status == Critical
    ensures d.showAtRiskSection <==> exists i :: 0 <= i < |ls| && ls[i].project.status == AtRisk
    ensures d.showOnTrackSection <==> exists i :: 0 <= i < |ls| && ls[i].project.status == OnTrack
  {
    GroupsPartition(ls);
    forall i | 0 <= i < |ls| ensures LabelIs(ls[i], "Critical") <==> ls[i].project.status == Critical
      ensures LabelIs(ls[i], "At Risk") <==> ls[i].project.status == AtRisk
      ensures LabelIs(ls[i], "On Track") <==> ls[i].project.status == OnTrack
    {
      StatusLabelInjective(ls[i].project.status, Critical);
      StatusLabelInjective(ls[i].project.status, AtRisk);
      StatusLabelInjective(ls[i].project.status, OnTrack);
    }
    FilterNonEmpty(ls, (l: ProjectListing) => l.missingCheckIn);
    FilterNonEmpty(ls, (l: ProjectListing) => LabelIs(l, "Critical"));
    FilterNonEmpty(ls, (l: ProjectListing) => LabelIs(l, "At Risk"));
    FilterNonEmpty(ls, (l: ProjectListing) => LabelIs(l, "On Track"));
    var missing := MissingCheckIns(ls);
    var critical := CriticalGroup(ls);
    var atRisk := AtRiskGroup(ls);
    var onTrack := OnTrackGroup(ls);
    Dashboard(|ls|, |onTrack|, |atRisk|, |critical|,
              |missing| > 0 || |critical| > 0,
              |missing| > 0,
              |critical| > 0,
              |atRisk| > 0,
              |onTrack| > 0)
  }

  /** Comparing the stored label with the status names in the page is the
      same as comparing statuses: each group holds exactly the listings
      with that status, so the groups are pairwise disjoint, a Completed
      project is in none of them, and together they hold at most all the
      listings. */
  lemma GroupsPartition(ls: seq<ProjectListing>)
    ensures forall l :: l in OnTrackGroup(ls) <==> l in ls && l.project.status == OnTrack
    ensures forall l :: l in AtRiskGroup(ls) <==> l in ls && l.project.status == AtRisk
    ensures forall l :: l in CriticalGroup(ls) <==> l in ls && l.project.status == Critical
    ensures forall l :: l in MissingCheckIns(ls) <==> l in ls && l.missingCheckIn
    ensures |OnTrackGroup(ls)| + |AtRiskGroup(ls)| + |CriticalGroup(ls)| <= |ls|
  {
    forall l: ProjectListing ensures LabelIs(l, "On Track") <==> l.project.status == OnTrack {
      StatusLabelInjective(l.project.status, OnTrack);
    }
    forall l: ProjectListing ensures LabelIs(l, "At Risk") <==> l.project.status == AtRisk {
      StatusLabelInjective(l.project.status, AtRisk);
    }
    forall l: ProjectListing ensures LabelIs(l, "Critical") <==> l.project.status == Critical {
      StatusLabelInjective(l.project.status, Critical);
    }
    MembersOf(ls, (l: ProjectListing) => LabelIs(l, "On Track"));
    MembersOf(ls, (l: ProjectListing) => LabelIs(l, "At Risk"));
    MembersOf(ls, (l: ProjectListing) => LabelIs(l, "Critical"));
    MembersOf(ls, (l: ProjectListing) => l.missingCheckIn);
    DisjointFiltersFit(ls, (l: ProjectListing) => LabelIs(l, "On Track"),
                       (l: ProjectListing) => LabelIs(l, "At Risk"),
                       (l: ProjectListing) => LabelIs(l, "Critical"));
  }

  lemma MembersOf(ls: seq<ProjectListing>, f: ProjectListing -> bool)
    ensures forall l :: l in Filter(ls, f) <==> l in ls && f(l)
  {
  }

  /** A project may be both Critical and missing a check-in; it then shows
      in both blocks. */
  lemma MissingOverlapsStatus(p: Project)
    requires p.status == Critical
    ensures var l := ProjectListing(p, true);
      l in MissingCheckIns([l]) && l in CriticalGroup([l])
  {
    GroupsPartition([ProjectListing(p, true)]);
  }

  function ListingHealth(l: ProjectListing): int { l.project.healthScore }

  /** The listing's order is the order of its projects' health scores. */
  lemma ListingOrder(ls: seq<ProjectListing>)
    ensures SortedBy(Projects(ls), HealthKey) <==> SortedBy(ls, ListingHealth)
  {
    assert forall i :: 0 <= i < |ls| ==> HealthKey(Projects(ls)[i]) == ListingHealth(ls[i]);
  }

  /** Every group keeps the listing's ascending health order. */
  lemma GroupsKeepOrder(ls: seq<ProjectListing>)
    requires SortedBy(Projects(ls), HealthKey)
    ensures SortedBy(OnTrackGroup(ls), ListingHealth) && SortedBy(AtRiskGroup(ls), ListingHealth)
    ensures SortedBy(CriticalGroup(ls), ListingHealth) && SortedBy(MissingCheckIns(ls), ListingHealth)
  {
    ListingOrder(ls);
    FilterKeepsSorted(ls, (l: ProjectListing) => LabelIs(l, "On Track"), ListingHealth);
    FilterKeepsSorted(ls, (l: ProjectListing) => LabelIs(l, "At Risk"), ListingHealth);
    FilterKeepsSorted(ls, (l: ProjectListing) => LabelIs(l, "Critical"), ListingHealth);
    FilterKeepsSorted(ls, (l: ProjectListing) => l.missingCheckIn, ListingHealth);
  }
}
