/** The client dashboard (app/client/page.tsx): the average health score,
    the count of active projects, the trend icon and the project the
    feedback form is attached to. */
module ClientPage {

  import opened Common
  import opened Sequences
  import opened ProjectModel
  import opened ProjectsRoute
  import HS = HealthScore
  import Card = ProjectCard
  import Admin = AdminPage

  /** `projects.reduce((sum, p) => sum + p.healthScore, 0)`. */
  function HealthSum(ls: seq<ProjectListing>): int
  {
    if ls == [] then 0 else HealthSum(ls[..|ls| - 1]) + ls[|ls| - 1].project.healthScore
  }

  /** `Math.round(sum / n)` for a non-empty list, 0 for an empty one. */
  function AvgHealthScore(ls: seq<ProjectListing>): (avg: int)
    ensures ls == [] ==> avg == 0
  {
    if |ls| > 0 then HS.Round(HealthSum(ls) as real / |ls| as real) else 0
  }

  lemma {:induction false} HealthSumBounds(ls: seq<ProjectListing>, lo: int, hi: int)
    requires forall i :: 0 <= i < |ls| ==> lo <= ls[i].project.healthScore <= hi
    ensures |ls| * lo <= HealthSum(ls) <= |ls| * hi
  {
    if ls != [] {
      HealthSumBounds(ls[..|ls| - 1], lo, hi);
    }
  }

  /** The average of a non-empty list lies between any integer bounds of
      its scores; in particular scores in [0, 100] average into [0, 100],
      and equal scores average to that score. */
  lemma AverageWithin(ls: seq<ProjectListing>, lo: int, hi: int)
    requires |ls| > 0
    requires forall i :: 0 <= i < |ls| ==> lo <= ls[i].project.healthScore <= hi
    ensures lo <= AvgHealthScore(ls) <= hi
  {
    HealthSumBounds(ls, lo, hi);
    var n := |ls| as real;
    var q := HealthSum(ls) as real / n;
    assert q * n == HealthSum(ls) as real;
    assert lo as real <= q by {
      assert n * (lo as real) <= q * n;
    }
    assert q <= hi as real by {
      assert q * n <= n * (hi as real);
    }
    HS.RoundMonotone(lo as real, q);
    HS.RoundMonotone(q, hi as real);
  }

  /** Scores the project schema accepts average into the same range. */
  lemma AverageInRange(ls: seq<ProjectListing>)
    ensures (forall i :: 0 <= i < |ls| ==> HealthScoreInRange(ls[i].project.healthScore))
            ==> HealthScoreInRange(AvgHealthScore(ls))
  {
    if ls != [] && forall i :: 0 <= i < |ls| ==> HealthScoreInRange(ls[i].project.healthScore) {
      AverageWithin(ls, 0, 100);
    }
  }

  /** `projects.filter(p => p.status === "on_track" || p.status === "at_risk").length`,
      as written. */
  function ActiveProjectsAsWritten(ls: seq<ProjectListing>): nat
  {
    |Filter(ls, (l: ProjectListing) => StatusLabel(l.project.status) == "on_track"
                                        || StatusLabel(l.project.status) == "at_risk")|
  }

  /** No stored status label is spelled "on_track" or "at_risk", so the
      count as written is 0 for every listing. */
  lemma ActiveProjectsAsWrittenIsZero(ls: seq<ProjectListing>)
    ensures ActiveProjectsAsWritten(ls) == 0
  {
    var f := (l: ProjectListing) => StatusLabel(l.project.status) == "on_track"
                                    || StatusLabel(l.project.status) == "at_risk";
    FilterNonEmpty(ls, f);
  }

  /** One On Track project: the page says "0 currently active". */
  lemma ActiveProjectsCounterexample(p: Project)
    requires p.status == OnTrack
    ensures ActiveProjectsAsWritten([ProjectListing(p, false)]) == 0
    ensures ActiveProjects([ProjectListing(p, false)]) == 1
  {
    ActiveProjectsAsWrittenIsZero([ProjectListing(p, false)]);
  }

  /** The count the page evidently means: projects On Track or At Risk. */
  function ActiveProjects(ls: seq<ProjectListing>): nat
  {
    |Filter(ls, (l: ProjectListing) => l.project.status == OnTrack || l.project.status == AtRisk)|
  }

  /** The corrected count is the size of the administrator dashboard's On
      Track group plus its At Risk group, and at most the number of projects. */
  lemma ActiveProjectsIsTwoGroups(ls: seq<ProjectListing>)
    ensures ActiveProjects(ls) == |Admin.OnTrackGroup(ls)| + |Admin.AtRiskGroup(ls)|
    ensures ActiveProjects(ls) <= |ls|
  {
    var f := (l: ProjectListing) => Admin.LabelIs(l, "On Track");
    var g := (l: ProjectListing) => Admin.LabelIs(l, "At Risk");
    var h := (l: ProjectListing) => l.project.status == OnTrack || l.project.status == AtRisk;
    forall i | 0 <= i < |ls| ensures h(ls[i]) == (f(ls[i]) || g(ls[i])) && !(f(ls[i]) && g(ls[i])) {
      StatusLabelInjective(ls[i].project.status, OnTrack);
      StatusLabelInjective(ls[i].project.status, AtRisk);
    }
    FilterDisjointUnion(ls, f, g, h);
  }

  datatype TrendColor = TrendEmerald | TrendAmber

  /** The trend icon: emerald from an average of 80, amber below. */
  function TrendColorOf(avg: int): TrendColor
  {
    if avg >= 80 then TrendEmerald else TrendAmber
  }

  /** The trend icon is emerald exactly when a card with the average score
      would be emerald. */
  lemma TrendMatchesCard(avg: int)
    ensures TrendColorOf(avg) == TrendEmerald <==> Card.HealthColor(avg) == Card.Emerald
  {
  }

  /** The project the feedback form is attached to: the first listed one;
      the form is not drawn for an empty list. As the listing comes lowest
      health first, feedback is always asked for the least healthy project. */
  function FeedbackTarget(ls: seq<ProjectListing>): (t: Option<ProjectListing>)
    ensures t.Some? <==> ls != []
    ensures t.Some? ==> t.value in ls
    ensures t.Some? && SortedBy(Projects(ls), HealthKey) ==>
      forall i :: 0 <= i < |ls| ==> t.value.project.healthScore <= ls[i].project.healthScore
  {
    if ls != [] then Some(ls[0]) else None
  }

  /** The figures on the page: the active count as the page shows it, and
      the corrected count beside it. */
  datatype ClientDashboard = ClientDashboard(
    total: nat,
    average: int,
    activeAsWritten: nat,
    active: nat,
    trend: TrendColor,
    feedbackTarget: Option<ProjectListing>)

  function DashboardOf(ls: seq<ProjectListing>): (d: ClientDashboard)
    ensures d.total == |ls| && d.active <= d.total
    ensures d.activeAsWritten == 0
    ensures d.average == AvgHealthScore(ls) && d.feedbackTarget == FeedbackTarget(ls)
    ensures d.active == |Admin.OnTrackGroup(ls)| + |Admin.AtRiskGroup(ls)|
    ensures (forall i :: 0 <= i < |ls| ==> HealthScoreInRange(ls[i].project.healthScore))
            ==> 0 <= d.average <= 100
    ensures d.trend == TrendEmerald <==> d.average >= 80
    ensures d.feedbackTarget.Some? <==> d.total > 0
  {
    ActiveProjectsIsTwoGroups(ls);
    ActiveProjectsAsWrittenIsZero(ls);
    AverageInRange(ls);
    var avg := AvgHealthScore(ls);
    ClientDashboard(|ls|, avg, ActiveProjectsAsWritten(ls), ActiveProjects(ls), TrendColorOf(avg), FeedbackTarget(ls))
  }
}
