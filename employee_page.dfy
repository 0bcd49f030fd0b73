/** The employee workspace (app/employee/page.tsx): the assigned projects
    read from the listing reply, the projects waiting for a weekly
    check-in, the open-risk counter, the focus project the quick-action
    forms are attached to and the check-in banner. */
module EmployeePage {

  import opened Common
  import opened Sequences
  import opened ProjectModel
  import opened ProjectsRoute
  import RM = RiskModel
  import Admin = AdminPage

  /** The `projects` member of the listing reply's JSON: an array of
      listings, or any other value. */
  datatype ProjectsJson = ProjectArray(items: seq<ProjectListing>) | NotAnArray

  /** `getProjects()`: a reply that is not ok throws (the page then
      redirects to the landing page, `None` here); a `projects` member that
      is not an array reads as no projects. */
  function ProjectsOf(replyOk: bool, json: ProjectsJson): (r: Option<seq<ProjectListing>>)
    ensures r.None? <==> !replyOk
    ensures replyOk && json.ProjectArray? ==> r == Some(json.items)
    ensures replyOk && json.NotAnArray? ==> r == Some([])
  {
    if !replyOk then None
    else if json.ProjectArray? then Some(json.items)
    else Some([])
  }

  /** `Risk.countDocuments({user: userId, status: "Open"})`: the caller's
      own open risks, whatever their project or severity. A failing query
      (`None`) counts 0. */
  function OpenRisksCount(risks: Option<seq<RM.Risk>>, uid: Id): (n: nat)
    ensures risks.None? ==> n == 0
    ensures risks.Some? ==> n <= |risks.value|
  {
    if risks.None? then 0
    else |Filter(risks.value, (r: RM.Risk) => r.user == uid && r.status == RM.Open)|
  }

  /** The counter is positive exactly when the store holds an open risk
      reported by the caller. */
  lemma OpenRisksCountPositive(risks: seq<RM.Risk>, uid: Id)
    ensures OpenRisksCount(Some(risks), uid) > 0 <==>
              exists i :: 0 <= i < |risks| && risks[i].user == uid && risks[i].status == RM.Open
  {
    FilterNonEmpty(risks, (r: RM.Risk) => r.user == uid && r.status == RM.Open);
  }

  /** Storing one more risk raises the counter by one exactly when the risk
      is open and reported by the caller; anything else leaves it alone. */
  lemma OpenRisksCountAfterReport(risks: seq<RM.Risk>, r: RM.Risk, uid: Id)
    ensures OpenRisksCount(Some(risks + [r]), uid) ==
              OpenRisksCount(Some(risks), uid) + (if r.user == uid && r.status == RM.Open then 1 else 0)
  {
    FilterAppend(risks, r, (x: RM.Risk) => x.user == uid && x.status == RM.Open);
  }

  /** `projects.filter(p => p.missingCheckIn)`: the same selection as the
      administrator dashboard's missing-check-in list. */
  function PendingCheckIns(ls: seq<ProjectListing>): (r: seq<ProjectListing>)
    ensures forall l :: l in r <==> l in ls && l.missingCheckIn
    ensures |r| <= |ls|
  {
    Admin.GroupsPartition(ls);
    Admin.MissingCheckIns(ls)
  }

  /** `pendingCheckIns[0] ?? projects[0] ?? null`: a project waiting for a
      check-in if there is one, otherwise any project, and nothing only
      when no project is assigned. */
  function FocusProject(ls: seq<ProjectListing>): (f: Option<ProjectListing>)
    ensures f.None? <==> ls == []
    ensures f.Some? ==> f.value in ls
    ensures f.Some? ==> (f.value.missingCheckIn <==> exists i :: 0 <= i < |ls| && ls[i].missingCheckIn)
  {
    var pending := PendingCheckIns(ls);
    if pending != [] then Some(pending[0])
    else if ls != [] then Some(ls[0])
    else None
  }

  /** `pendingCheckIns.includes(focusProject)`. */
  predicate ShowsCheckInBanner(ls: seq<ProjectListing>)
  {
    var f := FocusProject(ls);
    f.Some? && f.value in PendingCheckIns(ls)
  }

  /** The banner asking for a weekly check-in is drawn exactly when some
      assigned project is missing one. */
  lemma BannerIffPending(ls: seq<ProjectListing>)
    ensures ShowsCheckInBanner(ls) <==> exists i :: 0 <= i < |ls| && ls[i].missingCheckIn
    ensures ShowsCheckInBanner(ls) <==> PendingCheckIns(ls) != []
  {
  }

  /** The listing comes lowest health first, so the focus is the least
      healthy project waiting for a check-in, or the least healthy project
      when none is waiting. */
  lemma FocusIsLeastHealthy(ls: seq<ProjectListing>)
    requires SortedBy(ls, Admin.ListingHealth)
    ensures var f := FocusProject(ls);
      f.Some? ==> forall i :: 0 <= i < |ls| && (ls[i].missingCheckIn || !f.value.missingCheckIn) ==>
                    f.value.project.healthScore <= ls[i].project.healthScore
  {
    FilterKeepsSorted(ls, (l: ProjectListing) => l.missingCheckIn, Admin.ListingHealth);
  }

  /** An employee's listing holds only projects they are assigned to, so
      the quick-action forms always target one of their own projects. */
  lemma FocusIsAssigned(ls: seq<ProjectListing>, u: AuthUser)
    requires u.role == Employee
    requires forall i :: 0 <= i < |ls| ==> Visible(ls[i].project, u)
    ensures FocusProject(ls).Some? ==> u.id in FocusProject(ls).value.project.employees
  {
  }

  /** The figures and sections of the workspace. */
  datatype Workspace = Workspace(
    assignments: nat,
    missingUpdates: nat,
    openRisks: nat,
    amberMissingCard: bool,
    roseRisksCard: bool,
    focus: Option<ProjectListing>,
    checkInBanner: bool)

  /** The page: a redirect when the listing reply is not ok, otherwise the
      workspace built from the projects and the open-risk count. */
  datatype Page = Redirect | Rendered(workspace: Workspace)

  function PageOf(replyOk: bool, json: ProjectsJson, risks: Option<seq<RM.Risk>>, uid: Id): (p: Page)
    ensures p.Redirect? <==> !replyOk
    ensures p.Rendered? ==>
      var w := p.workspace;
      && w.missingUpdates <= w.assignments
      && (w.amberMissingCard <==> w.missingUpdates > 0)
      && (w.roseRisksCard <==> w.openRisks > 0)
      && (w.focus.None? <==> w.assignments == 0)
      && (w.checkInBanner <==> w.missingUpdates > 0)
      && (json.NotAnArray? ==> w.assignments == 0)
    ensures p.Rendered? ==>
      var ls := ProjectsOf(replyOk, json).value;
      && p.workspace.assignments == |ls|
      && p.workspace.missingUpdates == |PendingCheckIns(ls)|
      && p.workspace.openRisks == OpenRisksCount(risks, uid)
      && p.workspace.focus == FocusProject(ls)
  {
    var ps := ProjectsOf(replyOk, json);
    if ps.None? then Redirect
    else
      var ls := ps.value;
      var pending := PendingCheckIns(ls);
      var open := OpenRisksCount(risks, uid);
      BannerIffPending(ls);
      Rendered(Workspace(|ls|, |pending|, open, |pending| > 0, open > 0,
                         FocusProject(ls), ShowsCheckInBanner(ls)))
  }
}
